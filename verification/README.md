# A verified model of the travel-lead conversation engine

The program is a WhatsApp bot that qualifies travel leads. Customer messages are rate-limited, buffered
and debounced; each batch becomes one conversation turn that extracts slots and asks for the next one;
when the slots are complete, the customer is stuck, asks for a person or goes silent, the conversation
is handed over to an advisor through a CRM. This project models that engine in Dafny and proves what it
promises. Verify it with `dafny verify dfyconfig.toml`.

How the pieces fit:

* **Conversation.** `Schemas`, `Slots`, `Completeness`, `Conversations` and `TurnLogic` are the slot
  descriptors, the merge, the completeness rules and one turn: pure decisions as functions, the steps on
  the mutable working state as methods proved equal to them. `Payloads` is the record's stored form.
  `TurnDecisions` says exactly what a turn decides, changes and charges, and `SlotHistory`, `TurnInvariants`
  and `TurnBound` prove what whole histories of turns leave behind, and how many unusable turns a
  conversation can take; `TurnExamples` is a history that ends as stuck with
  nothing missing. Descriptors are a parameter everywhere; the three shipped ones are instances.
* **What the advisor sees.** `Concepts`, `LeadPayload`, `HandoffNotes` and `AdvisorView` for what is
  written, `LeadTexts` for how it reads.
* **The CRM half of a handoff.** `Crm` is the server's data with its phone search, `HandoffRuns` the
  find-or-create / note / PATCH sequence with a failure possible at each call, before or after the
  server applied it, and `RetryTransparency` what any number of failed attempts followed by a clean one
  amounts to.
* **The handoff protocol.** `ProtocolState` and `Protocol` are a state machine with one step per await
  for any number of flushes and sweeps of one sender: Redis lock, buffer and flag, the durable record,
  the CRM, and ledgers of what happened. Every await may fail before or after its effect, any process
  may die at any point, others may add to the CRM, and time passes freely. `ProtocolExclusion` says
  exactly when mutual exclusion holds; `ProtocolInvariant`, `ProtocolSafety` and `ProtocolRuns` prove
  what then holds in every state of every run, and `ProtocolSilence` that nothing more is written once a
  conversation is handed off; `ProtocolSweep` that sweeps are never premature. `ProtocolAnyRun`,
  `ProtocolReasons`, `ProtocolLedgers`, `ProtocolStranded`, `ProtocolBatches` and `ProtocolReverts` need no
  timing hypothesis: what every run keeps, which reason a handoff carries, what the ledgers count, and exactly when a message is left without a flush, a drained batch without a turn, or a handed-off
  record goes back to collecting. `ProtocolExamples` and `ProtocolLate` are runs that show what is not
  promised. `Delivery` joins the protocol to the timers that start its flushes.
* **The handoff as written.** `HandoffFlow` and `Handoff` run it call by call on mutable state;
  `Alone` and `HandoffRefinement` prove that what they do is a run of the state machine.
* **Around it.** `Leases` and `LockKey` (the lock with its WATCH/GET/EXEC release loop), `Debounce`,
  `RateWindows`, `Webhook` and `WebhookOutcomes` (timers and input checks), `Flush`, `Sweeper`, `InboundRelay` (advisor
  messages on their way back) and `Retry` (calls to the language model).

Where the code and natural expectations part, the code is kept and the exact condition is proved:

* "Two flushes never process the same conversation at once" (the lock's own documentation) holds for a run
  if and only if, whenever the key was granted, every process still in its section was within its lease
  (`ProtocolExclusion.ExclusionExactly`); `ProtocolExamples.OverrunOverlaps` is a run that overlaps.
  `ProtocolRuns` and `ProtocolSilence` are proved for those runs. What fails outside them is above all that a
  handoff is for good: it is, in any run, if and only if no save but the flip's went through over a
  handed-off record (`ProtocolReverts.HandedOffForGoodExactly`), which takes a process that outlived its
  lease (`ProtocolReverts.RevertsOnlyLate`) and does happen (`ProtocolLate.HandoffCanBeReverted`).
* "Every message is eventually flushed" does not hold: a flush that finds the lock taken leaves the
  buffer alone and starts no timer (`ProtocolExamples.MessageCanBeStranded`). A buffered message is abandoned,
  with no flush on its way and no timer to start one, if and only if, since the sender last armed a timer,
  the program was restarted with no flush on its way, a message arrived that armed no timer with neither
  flush nor timer left, or the last flush was turned away with no timer left: its lock request refused or
  failed, its drain dropped, or its process dead (`Delivery.AbandonedExactly`). Losing the timers in a redeploy
  is documented as harmless; what waited then waits for the sender's next message
  (`Debounce.TimerlessExactly`). No message leaves the buffer but in a batch
  (`ProtocolAnyRun.MessagesAreConserved`), and a drained batch never reaches a turn if and only if the answer
  of its drain was lost, the check of the block failed or said "blocked", or its process died in between
  (`ProtocolBatches.LostExactly`).
* "How turns are batched does not matter" holds if and only if no slot shows a scalar between two nested
  values the last of which does not restate every part of the first
  (`SlotHistory.MergeAssociativeExactly`), hence always for consistently typed slots.
* "A satisfied slot stays satisfied" holds if and only if the turn does not take back a budget that rested only
  on leaving it to the advisor (`Completeness.SatisfactionSurvivesMerge`).
* "A satisfied requirement reaches the CRM" fails for the name, which goes to the contact and never to a
  lead field (`AdvisorView.NameIsNoField`). For any other requirement, on the conversation's own slots, it
  fails if and only if the slot is empty or blank text and so is its escape, if it has one
  (`AdvisorView.LeftOutExactly`); one with something to show is written whatever else is filled
  (`AdvisorView.RequirementsAreWritten`).
* "A retried handoff ends like a clean one" holds if and only if the funnel's default stage can be
  followed by the target stage, once a created lead's first note is lost
  (`RetryTransparency.LostNoteIsTransparentExactly`); the shipped funnel meets it exactly for the default
  stages in `RetryTransparency.TopViajesRepublishes`.
* "Stuck" means that some slot was given up on (`TurnInvariants.DecisionIsJustified`), and giving up is never
  taken back: a conversation handed over as stuck has every required slot satisfied if and only if those
  given up on have been answered since (`TurnInvariants.StuckLacksNothingExactly`), and every shipped
  trip has such a conversation (`TurnExamples.ShippedStuckWithNothingMissing`).
* A queued advisor message has nobody to relay it if and only if the last drain or webhook alive was just
  stopped short by a pop that raised or by dying (`InboundRelay.OrphanedExactly`); a popped one is lost if
  and only if its drain died with it in hand or the pop that took it raised (`InboundRelay.LostExactly`).
* A sweep is documented as isolating failures per conversation. The request for a conversation's lock stands
  before that isolation and its release behind it: the sweep completes if and only if it started and none
  of these raised, for any conversation found due or for the sweep itself (`Sweeper.Sweep.SweepOnce`,
  `Sweeper.FailedReleaseStopsTheSweep`).

## Model

| member | source | states |
|---|---|---|
| Slots.MergeByLoop | app/domain/state.py:158-183 | The nested loops compute the merge: what a turn says replaces, what it does not say stays, nested values part by part |
| Slots.MergedAt | app/domain/state.py:158-183 | The merge slot by slot: a slot is filled after it exactly when it was filled before or the turn says something |
| SlotHistory.FoldHoldsLast | app/domain/state.py:170-183 | After any history one slot holds the last thing said, or, while nested, the last thing said of each part since the last scalar |
| SlotHistory.MergeAllTracks | app/domain/state.py:158-183 | Merging whole turns is merging each slot's own track: slots never influence each other |
| SlotHistory.SlotsHoldLastSaid | app/domain/state.py:158-183 | The slots after any history of turns are the declarative summary "last said per slot and per part" |
| SlotHistory.MergeAssociativeExactly | app/domain/state.py:158-183 | Grouping three merges either way gives the same slots if and only if no slot shows the one clashing shape |
| SlotHistory.BatchingIsHarmless | app/domain/state.py:158-183 | For slots of consistent kind, turns may be cut into batches anywhere |
| Completeness.NextRequiredSlot | app/domain/completeness.py:57-64 | The first unmet required slot in flow order, and none if and only if every required slot is met |
| Completeness.NextSlotToAsk | app/domain/completeness.py:67-92 | The first slot still to ask in flow order, and none if and only if there is none |
| Completeness.MergeKeepsTypes | app/domain/state.py:170-183 | Merging typed extraction into typed slots gives typed slots |
| Completeness.SatisfactionSurvivesMerge | app/domain/completeness.py:21-54 | A satisfied slot stays satisfied by a merge if and only if the turn does not revoke a budget resting on "review with an advisor" |
| TurnDecisions.ShippedSatisfiedExactly | app/domain/completeness.py:21-54 | Of the shipped slots a destination is satisfied by itself or, outside cruises, by the experience wanted, a budget by an amount or by leaving it to the advisor, the passengers by the adults, any other by any value |
| Payloads.RoundTrip | app/domain/state.py:83-129 | Every record survives being stored and loaded, its sets by way of sorted lists |
| Payloads.EarlierPayloadsLoad | app/domain/state.py:108-129 | Whatever later keys a stored object lacks, it loads, keeps what it has, and is as a new conversation in the rest |
| Payloads.ResavedExactly | app/domain/state.py:83-129 | Saving what was loaded writes the same object if and only if no key was missing and its lists were sorted without repetition |
| TurnLogic.CountFailedAttempt | app/domain/orchestrator.py:317-338 | The mutating step equals the specified count; what that charges is `TurnDecisions.ChargesExactly` |
| TurnLogic.Route | app/domain/orchestrator.py:248-293 | The routing turn on mutable state equals its specification: disambiguate, or fix the trip and ask its first slot |
| TurnLogic.Collect | app/domain/orchestrator.py:166-235 | The collecting turn on mutable state equals its specification: merge, human request first, count, next slot or handoff; what it decides and leaves is `TurnDecisions.RoutedDecidesExactly` and `TurnDecisions.RoutedRecords` |
| TurnLogic.HandleTurn | app/domain/orchestrator.py:161-235 | One turn on mutable state, routed or not, equals its specification |
| TurnDecisions.RoutedDecidesExactly | app/domain/orchestrator.py:180-235 | A routed turn hands off to a person if and only if one was asked for, completes if and only if nothing is left to ask and nothing was given up on, is stuck if and only if nothing is left but something was, and otherwise asks the first slot left |
| TurnDecisions.RoutingDecidesExactly | app/domain/orchestrator.py:248-293 | An unrouted turn disambiguates if and only if the trip is unknown, and otherwise asks that trip's first slot left, or completes if there is none |
| TurnDecisions.RoutedRecords | app/domain/orchestrator.py:166-235 | What a routed turn leaves of the record: the merged slots, the message sent, the question noted if and only if it asks, the name acknowledged with the first question asked once it is known, and the rest as it was |
| TurnDecisions.RoutingRecords | app/domain/orchestrator.py:265-293 | Before that only the trip, the question, the message and the greeting are noted |
| TurnDecisions.ChargesExactly | app/domain/orchestrator.py:317-338 | A turn charges if and only if it fills nothing, asks nothing, wants nobody, and the last question went to a required slot still open; it then charges that slot once more and nothing else, and gives it up at the third charge |
| TurnDecisions.RoutedHistory | app/domain/orchestrator.py:161-166 | The turns of a routed conversation are all collecting turns of its own trip, so what is proved of those holds of whole conversations |
| TurnDecisions.CountsAreWastedTurns | app/domain/orchestrator.py:317-338 | Over any history a slot's count is the number of turns that wasted its question, and it is given up on if and only if there were three |
| TurnDecisions.FreeTurnsChargeNothing | app/domain/orchestrator.py:334-335 | Any number of questions, answers with data and requests for a person change no count |
| TurnDecisions.HistoryMerges | app/domain/orchestrator.py:177 | The slots of a conversation are what its turns extracted, merged in order |
| TurnDecisions.ArmedExactly | app/domain/orchestrator.py:350-370 | Saving a continuing turn sets the deadline a full silence ahead if the name is known, leaves it alone otherwise, and touches nothing else |
| TurnInvariants.TurnKeepsSound | app/domain/orchestrator.py:161-235 | Every turn keeps the record's slot invariant, touches none of its handoff markers and never changes a fixed trip |
| TurnInvariants.RunKeepsSound | app/domain/orchestrator.py:152-235 | So does any history of saved turns |
| TurnInvariants.PendingIsRequired | app/domain/orchestrator.py:326-338 | A slot given up on is a required slot of the conversation's own trip, after at least three failed attempts |
| TurnInvariants.DecisionIsJustified | app/domain/orchestrator.py:221-230 | "Complete" only with no required slot missing; "stuck" if and only if a slot was given up on, every other required one being satisfied |
| TurnInvariants.StuckLacksNothingExactly | app/domain/orchestrator.py:221-230 | A stuck conversation lacks no required slot if and only if every slot it gave up on has been satisfied since |
| TurnExamples.StuckWithNothingMissing | app/domain/orchestrator.py:161-235 | For any catalogue that first asks a required slot there is such a conversation, from its first message on |
| TurnExamples.ShippedStuckWithNothingMissing | app/domain/orchestrator.py:161-235 | So there is for each shipped trip |
| TurnInvariants.OptionalAskedOnce | app/domain/completeness.py:79-92 | An optional slot is asked in at most one saved turn of a conversation |
| TurnInvariants.ShippedIsUsable | app/understanding/schemas.py:89-228 | The shipped descriptors are well formed and each starts by asking the name |
| TurnBound.UnusableTurn | app/domain/orchestrator.py:193-235 | A turn with nothing usable lowers the measure by exactly one, and hands off exactly when it reaches zero |
| TurnBound.ExactTurnCount | app/domain/orchestrator.py:193-235 | From any open question the number of unusable turns to the handoff is exactly the measure |
| TurnBound.StuckAfterExactly | app/domain/orchestrator.py:193-235 | From a freshly routed conversation exactly three per required and one per optional slot, and then it is stuck |
| TurnBound.ShippedCounts | app/understanding/schemas.py:89-228 | Five required and six optional slots for a cruise, six and six for Europe and Asia |
| TurnBound.ShippedTripsGetStuck | app/domain/orchestrator.py:193-235 | Exactly 21 unusable turns after routing for a cruise, 24 for Europe or Asia |
| TurnBound.MeasureNeverRises | app/domain/orchestrator.py:166-235 | No turn raises the measure, whatever is said, unless it revokes a budget |
| TurnBound.UnusableTurnsAreBounded | app/domain/orchestrator.py:166-235 | Over any history without a revocation, with questions and other answers in between, at most three unusable turns per required and one per optional slot up to the handoff; each count is the number of turns that wasted its question, so questions alone change none |
| Schemas.DescriptorsWellFormed | app/understanding/schemas.py:89-228 | Slot names are distinct and required slots can be asked |
| Concepts.LookupIsMeaning | app/domain/concepts.py:46-93 | Looking a slot up in the table gives its concept, for any truthful table |
| Concepts.ShippedTableTruthful | app/domain/concepts.py:46-93 | The shipped table is truthful |
| LeadPayload.BuildCustomFieldsValues | app/crm/lead_payload.py:30-65 | The loop with its set of seen concepts writes, per concept, the first slot in table order that has something to say; how it reads is `LeadTexts.FieldTextExactly` |
| LeadPayload.FieldsAreWon | app/crm/lead_payload.py:51-65 | A field is written if and only if it is some concept's first serializable slot |
| LeadPayload.WrittenExactly | app/crm/lead_payload.py:51-65 | A concept's field is written if and only if some slot listed under it has something to say |
| LeadPayload.FieldIdsDistinct | app/crm/lead_payload.py:51-65 | With an injective id table no field is written twice |
| LeadPayload.TopViajesFields | app/crm/kommo_mapping_topviajes.py:24-39 | In the shipped account every concept has a field, and no two share one |
| LeadPayload.SpokenConceptIsWritten | app/crm/lead_payload.py:51-65 | A slot with something to say always gets its concept written |
| AdvisorView.StuckLabelsReadable | app/domain/handoff_note.py:65-107 | In reachable states the labels of a stuck note are readable, never raw slot names, and pairwise distinct |
| AdvisorView.OmittedExactlyWhenBlank | app/crm/lead_payload.py:68-109 | Of the values that satisfy a slot by themselves, exactly those resting on blank text serialize to nothing |
| AdvisorView.WrittenByItself | app/crm/lead_payload.py:30-65 | On slots of the conversation's own descriptor, a requirement's field is written if and only if the slot or its escape serializes |
| AdvisorView.LeftOutExactly | app/crm/lead_payload.py:30-65 | On slots of the conversation's own descriptor, as every stored record's are (ProtocolAnyRun.EveryRecordIsSound), a satisfied requirement but the name is left out of the lead if and only if it and its escape are empty or blank text |
| AdvisorView.RequirementsAreWritten | app/crm/lead_payload.py:30-65 | Whatever else is filled, a satisfied requirement that is not left out for that reason has its concept's field written |
| AdvisorView.NameIsNoField | app/crm/lead_payload.py:51-65 | The name has no influence on the lead's fields |
| AdvisorView.EscapeOnlyWithoutDestination | app/crm/lead_payload.py:51-65 | A destination is marked as a mere preference only if no concrete one was given |
| LeadTexts.FieldTextExactly | app/crm/lead_payload.py:51-65 | A concept's field carries a text if and only if its first slot with something to say reads so: the serialized value as it is, or after the prefix if the slot is an escape |
| LeadTexts.DestinationExactly | app/crm/lead_payload.py:51-65 | On the shipped tables the destination field is the first concrete destination as given, a marked wish if and only if there is no concrete one but some experience was wanted, and left out if there is neither |
| LeadTexts.AnswersLandInTheirFields | app/crm/kommo_mapping_topviajes.py:24-39 | What a conversation of one trip captured reads in the account's own field for it, and no field carries another slot's value |
| LeadTexts.DestinationLandsInItsField | app/crm/lead_payload.py:25-65 | For a conversation of one trip the account's destination field is the place if and only if one was given, and otherwise the wish |
| LeadTexts.TextReadsTrimmed | app/crm/lead_payload.py:68-77 | A text reads as itself without the white space around it, and is left out if and only if it is all white space |
| LeadTexts.BudgetReads | app/crm/lead_payload.py:89-94 | A budget reads as left to the advisor if and only if it is, and otherwise as its amount |
| LeadTexts.PassengersRead | app/crm/lead_payload.py:97-109 | Passengers read as so many adults and then the minors with their ages, or that there are some |
| LeadTexts.DecimalReadsBack | app/crm/lead_payload.py:97-109 | The numbers written read back as themselves |
| HandoffNotes.NoteTellsReason | app/domain/handoff_note.py:65-82 | No two reasons share a note, and only a stuck handoff's depends on what was given up on |
| AdvisorView.ShippedEscapes | app/understanding/schemas.py:268-281 | The escape slots of the shipped catalogue |
| Crm.ResolveIsExact | app/domain/handoff_orchestration.py:143-178 | From an exact search: reuse the phone's most recent lead with the contact that owns it, else its most recent contact, else create both |
| Crm.ResolutionUnique | app/domain/handoff_orchestration.py:143-178 | The order of the search results does not matter |
| HandoffRuns.HandoffRunner.FindOrCreate | app/domain/handoff_orchestration.py:143-178 | The method, with any call failing, equals its specification on the server's data |
| HandoffRuns.HandoffRunner.Execute | app/domain/handoff_orchestration.py:112-141 | The whole sequence, with any call failing before or after the server applied it, equals its specification |
| RetryTransparency.CleanRunDelivers | app/domain/handoff_orchestration.py:112-141 | A clean run posts its note, with reason and given-up slots, to the lead it returns, and leaves it with every captured field written, every other field as it was, and in the reason's stage unless it stands further on or off the map; other leads are as they were |
| RetryTransparency.AttemptOutcome | app/domain/handoff_orchestration.py:112-178 | One attempt, failing anywhere, leaves the CRM untouched, or with the created lead, or published; a clean one returns the lead and contact |
| RetryTransparency.RetryIsTransparent | app/domain/handoff_orchestration.py:112-211 | After any number of attempts failing anywhere, a clean run gives the same result and the same CRM as one clean run, with at most one new lead and contact and one note per attempt |
| RetryTransparency.LostNoteIsTransparentExactly | app/domain/handoff_orchestration.py:180-211 | After creating a lead and losing its note, the retry ends like a clean run if and only if the funnel is republishable |
| RetryTransparency.TopViajesRepublishes | app/crm/kommo_mapping_topviajes.py:47-66 | The shipped funnel is republishable for every reason if and only if new leads start in one of two stages |
| RetryTransparency.TopViajesMoves | app/crm/kommo_mapping_topviajes.py:47-66 | The stage each reason targets in the shipped funnel, and from exactly which stages a reused lead moves to it |
| RetryTransparency.StageOnlyMovesForward | app/domain/handoff_orchestration.py:180-211 | Over any runs for any reasons a lead on the map ends at the furthest of its start and the targets applied, and never moves back |
| RetryTransparency.OffMapNeverMoves | app/domain/handoff_orchestration.py:191-211 | A lead in a stage the funnel does not know is never moved |
| RetryTransparency.NoteBeforeStage | app/domain/handoff_orchestration.py:122-141 | A run that changed an existing lead had posted its note on that lead |
| LockKey.TraceKeepsSane | app/concurrency/lock.py:16-38 | Over every interleaving of acquires, releases, expiry and eviction, unexpired leases are backed by the key and a reader's decision is still valid while its watch is |
| LockKey.AtMostOneUnexpiredOwner | app/concurrency/lock.py:16-19 | At any time at most one token holds an unexpired lease, and while one does nobody else can acquire |
| LockKey.OthersCannotRelease | app/concurrency/lock.py:22-38 | No step of anybody else removes an unexpired lease |
| LockKey.ReleaseIsCompareAndDelete | app/concurrency/lock.py:22-38 | However WATCH, GET and EXEC interleave with others, their effect on the key is one atomic compare-and-delete or nothing |
| LockKey.LockServer.Release | app/concurrency/lock.py:22-38 | The retry loop ends with the client done, after at most one round more than others interfered |
| Protocol.Advance | app/concurrency/flush.py:148-191 | What any await may touch: the lock only when leaving, the record only with the working copy, slots only by loading or a turn, the buffer only by draining, the CRM only by creating and patching, the reason only by a turn or a sweep's load; and a handoff never turns back |
| ProtocolReasons.ReasonAfter | app/domain/orchestrator.py:180-235 | After any await a process carries the reason its turn has just decided, and otherwise the one it had; only a sweep starts a handoff without a turn, with no answer |
| ProtocolReasons.HandoffCarriesItsReason | app/domain/orchestrator.py:466-474 | In every run a flush anywhere in a handoff carries the reason its own turn decided, unchanged since; a sweep carries no answer |
| ProtocolReasons.StageIsTheReasons | app/domain/handoff_orchestration.py:123-141 | In every run an existing lead is written by the bot's PATCHes only: each writes the fields of its process's slots and sets the stage of the reason that process's turn decided, or of a sweep's no answer; only a reused lead may keep its stage |
| ProtocolLedgers.LedgersCount | app/domain/orchestrator.py:391-490 | In every run notes, chats, leads, contacts, flips and farewells are counted as often as the awaits that do them went through |
| ProtocolLedgers.FlagIsRaisedExactly | app/domain/orchestrator.py:152-159 | The flag is up if and only if a handoff reached its end or a flush found the conversation handed off |
| ProtocolLedgers.RecordsAreDeeds | app/domain/orchestrator.py:391-475 | The runs and links on record are those that some process returned, made or was refused as made |
| ProtocolExclusion.RunKeepsOwned | app/concurrency/lock.py:16-38 | In every run, however late processes are, one that is in its section and within its lease owns the key |
| ProtocolExclusion.GrantExcludesExactly | app/concurrency/lock.py:16-19 | Granting a free key keeps mutual exclusion if and only if everyone in a section was in time |
| ProtocolExclusion.ExclusionExactly | app/concurrency/flush.py:148-191 | A run has mutual exclusion throughout if and only if, whenever the key was granted, nobody had outlived its lease |
| ProtocolExclusion.LeavingFreesTheKey | app/concurrency/flush.py:190-191 | A process that leaves in time gives the key back, unless the release itself is lost |
| ProtocolExclusion.LeavingLateTakesNothing | app/concurrency/lock.py:22-38 | One that leaves late does not take away the lease of whoever came after |
| ProtocolInvariant.AdvanceKeeps | app/domain/orchestrator.py:391-490 | Every await of the lock holder, answered, dropped or lost, keeps the protocol invariant and undoes nothing already saved |
| ProtocolRuns.RunSatisfiesInv | app/domain/orchestrator.py:391-490 | The protocol invariant holds in every state of every run with mutual exclusion |
| ProtocolRuns.HandedOffForGood | app/domain/orchestrator.py:152-159 | Handed off once and for all; the Redis flag only stands for a handed-off record; at most one flip and at most one farewell |
| ProtocolRuns.FlipsOnce | app/domain/orchestrator.py:485-489 | Two events that take the durable phase from collecting to handed off are the same event |
| ProtocolRuns.MarkersAreWrittenOnce | app/domain/orchestrator.py:413-489 | Lead, contact and chat ids never change once saved |
| ProtocolRuns.HandoffIsEarned | app/domain/orchestrator.py:457-489 | Handed off implies that the CRM run returned that lead and contact, and, with a connector, that contact and chat were linked or reported as linked already |
| ProtocolRuns.DuplicatesAreLosses | app/domain/orchestrator.py:413-475 | At most one note more than attempts that ended between note and save, the same for chats; exact whenever nobody is at work |
| ProtocolRuns.OneLeadOneContact | app/domain/handoff_orchestration.py:143-178 | Over every interleaving the bot creates at most one lead and one contact for the phone |
| ProtocolRuns.TurnsAreInOrder | app/concurrency/flush.py:151-171 | Batches reach turns in the order drained, each once, and with the buffer they are the messages received |
| ProtocolAnyRun.EveryRecordIsSound | app/domain/orchestrator.py:152-235 | In every state of every run, every stored record and working copy satisfies the slot invariant |
| ProtocolAnyRun.MessagesAreConserved | app/concurrency/buffer.py:16-33 | In every run the messages received are the drained batches in order, then the buffer; each batch is a non-empty contiguous block and reaches at most one turn |
| ProtocolBatches.StepLosesExactly | app/concurrency/flush.py:148-158 | What every possible event does to a drained batch: one is lost exactly between its drain and its turn, by a lost answer, a failed or positive check of the block, or a crash |
| ProtocolBatches.LostExactly | app/concurrency/flush.py:148-158 | In every run a batch is lost, in no turn and in nobody's hands, if and only if some event lost it |
| ProtocolBatches.EveryBatchReachesATurnExactly | app/concurrency/flush.py:148-171 | A drained batch has reached a turn or is held by a process about to check the block, never both, if and only if no event lost it |
| ProtocolReverts.StepRevertsExactly | app/domain/orchestrator.py:350-490 | An event takes the durable phase from handed off back to collecting if and only if it is a save other than the flip's that goes through over a handed-off record |
| ProtocolReverts.HandedOffForGoodExactly | app/domain/orchestrator.py:152-159 | In every run, with any delays, handed off is for good if and only if no such save happens |
| ProtocolReverts.RevertsOnlyLate | app/concurrency/lock.py:16-19 | Before such a save the key was granted while some process had outlived its lease |
| ProtocolReverts.HandedOffIsClosed | app/domain/orchestrator.py:485-489 | In every run only a flip's save hands the record off, and it leaves no question open and no deadline |
| ProtocolStranded.StepStrandsExactly | app/concurrency/flush.py:131-153 | Of the flushes already started: a buffered message without one stays so until a flush is started, and comes to be so exactly when the last flush for it is turned away or it arrives with none waiting |
| ProtocolStranded.StrandedExactly | app/concurrency/flush.py:131-153 | In every run, however slow: a buffered message has no flush on its way if and only if some event left one so and no flush has been started since |
| Delivery.StepAbandonsExactly | app/concurrency/flush.py:81-128 | Webhook, timers and protocol together, restarts included: what every step does to messages with neither flush nor timer |
| Delivery.AbandonedExactly | app/concurrency/flush.py:38-46 | In every run a buffered message has no flush on its way and no timer to start one if and only if some event abandoned one and the sender has armed no timer since |
| ProtocolSilence.SilentForGood | app/domain/orchestrator.py:152-159 | From the moment the durable phase is handed off, in every state of every timely run, the record is the same, no lead, contact, note, chat, link or published run is added, and the CRM changes only where others change it |
| ProtocolSweep.SweepHandsOffOnlyDue | app/concurrency/inactivity.py:69-83 | While a sweep hands a conversation off, the last saved turn that armed the deadline is a full silence window before the time the sweep works with |
| ProtocolSweep.SweepGoesOnExactly | app/concurrency/inactivity.py:69-83 | A sweep goes on if and only if the record it loads is collecting and its deadline has passed |
| ProtocolSweep.FlushGoesOnExactly | app/domain/orchestrator.py:152-159 | A flush takes a turn on a collecting record as stored, and stays silent about a handed-off one |
| ProtocolSweep.ArmsExactly | app/domain/orchestrator.py:364-368 | Before its save a turn's deadline is set a full silence from now if the name is known, and nothing else changes |
| ProtocolExamples.OverrunOverlaps | app/concurrency/lock.py:16-19 | There is a run in which two flushes are in their sections at once |
| ProtocolLate.HandoffCanBeReverted | app/domain/orchestrator.py:350-370 | There is a run in which a flush that outlived its lease saves its turn over a handed-off record, which is collecting again |
| ProtocolExamples.MessageCanBeStranded | app/concurrency/flush.py:145-146 | There is a run that ends with a message in the buffer, the lock free and every process gone |
| HandoffFlow.RunAgrees | app/domain/handoff_orchestration.py:112-178 | The machine's CRM awaits without interference leave the same CRM and result as one run of the handoff runner |
| Handoff.ConnectChatAtHandoff | app/domain/orchestrator.py:391-428 | Create once, save at once, always link, as the machine does; no connector means nothing to do, and an already linked chat counts as linked |
| Handoff.FlipPhase | app/domain/orchestrator.py:485-489 | The phase is saved before the flag goes up; success means both |
| Handoff.RunInactivityHandoff | app/domain/inactivity.py:27-70 | The silent handoff, every call failing or not, is what the machine does; it succeeds unless a call fails, and success means flipped, saved and flagged; it posts nothing if a contact is on record, and otherwise one note that says no answer |
| Handoff.HandOffTurn | app/domain/orchestrator.py:431-490 | The handoff that ends a turn saves progress first, and returns the reply if nothing fails and only if everything succeeded; it posts nothing if a contact is on record, and otherwise one note with the reason and what was given up on; on success a contact not on record before is the own contact of a lead of the customer's phone |
| HandoffRefinement.HandoffIsARun | app/domain/inactivity.py:43-69 | What the silent handoff does is a run of the state machine in which nobody else moves |
| HandoffRefinement.TurnHandoffIsARun | app/domain/orchestrator.py:454-490 | So is what the handoff at the end of a turn does |
| Debounce.Debouncer.ScheduleFlush | app/concurrency/flush.py:60-98 | Arms the sender's one timer as specified: cancels the pending one, keeps the burst's anchor, caps the delay |
| Debounce.Debouncer.Resume | app/concurrency/flush.py:115-128 | A woken task commits as specified, clearing the burst's entries before anything else can run |
| Debounce.DictionariesAgree | app/concurrency/flush.py:81-128 | Over every interleaving of arrivals, possibly late timers and restarts, anchor and pending timer exist exactly while the running program knows of an open burst, and the one live timer is due at the capped debounce of the last message |
| Debounce.AnchorsArePending | app/concurrency/flush.py:81-128 | The anchor keys always equal the pending keys |
| Debounce.OneLiveTimer | app/concurrency/flush.py:85-98 | A sender never has two live uncommitted timers |
| Debounce.StatusIsFinal | app/concurrency/flush.py:119-125 | A task that has committed to flushing is never cancelled, and a cancelled one never flushes |
| Debounce.FiresExactly | app/concurrency/flush.py:75-83 | With ideal timers a flush starts at exactly the earlier of last message plus window and first message plus cap, counting messages since the program started, with the last message's token |
| Debounce.NeverEarly | app/concurrency/flush.py:75-83 | With late timers no flush comes before that time |
| Debounce.BurstsPartition | app/concurrency/flush.py:115-128 | Every message is handed to exactly one flush or still waits, in order of arrival, and no flush is for nothing |
| Debounce.TimerlessExactly | app/concurrency/flush.py:41-46 | Messages wait without a timer if and only if the program was restarted while messages waited and the sender has not written since |
| Debounce.EveryMessageHasItsFlush | app/concurrency/flush.py:60-128 | Every message was handed to a flush or waits; what the running program knows of has its one live timer, due with the last token, and nothing waits without it unless a restart lost it |
| Webhook.Gate.IsDuplicate | app/concurrency/dedup.py:16-20 | Duplicate if and only if the id is marked and alive; otherwise it is marked |
| Webhook.Gate.RegisterHit | app/concurrency/rate_limit.py:12-21 | Counts within the window and starts a new one only after it has expired |
| Webhook.Gate.Drain | app/concurrency/buffer.py:21-33 | Returns the whole buffer in order and leaves it empty |
| Webhook.Gate.Receive | app/main.py:359-396 | The checks in order equal their specification, and the timer is armed exactly for a message that passed them all and is in the buffer; which messages meet which fate is `WebhookOutcomes` |
| Webhook.WindowBound | app/concurrency/rate_limit.py:12-21 | Over any traffic at most the threshold of a sender's messages passes in each fixed window, and windows do not overlap |
| RateWindows.HitKeepsRate | app/concurrency/rate_limit.py:12-21 | Every hit keeps each window's passes within the limit |
| RateWindows.IntervalBound | app/concurrency/rate_limit.py:12-21 | A closed interval no longer than a window sees at most twice the limit |
| Webhook.RateBound | app/main.py:375-380 | Over any traffic at most twice the threshold of a sender's messages gets past the limiter in any closed interval of one window |
| Webhook.BufferHoldsWaiting | app/main.py:382-387 | The buffer is exactly the messages that passed since it was last drained, an overflowing one included |
| Webhook.DuplicatesDoNotPass | app/main.py:364-367 | A message id gets past the duplicate check at most once per TTL |
| Webhook.DuplicateExactly | app/main.py:359-367 | A message is dropped as a duplicate if and only if its sender is not blocked and its id got past the check within the TTL: a message dropped while blocked, or as a duplicate, does not use its id up |
| WebhookOutcomes.DiscardedExactly | app/main.py:359-362 | A message is discarded if and only if one of its sender's flooded the limiter or overflowed the buffer less than the cooldown ago |
| WebhookOutcomes.MirroredExactly | app/main.py:369-373 | A message is mirrored if and only if it is neither discarded nor a duplicate and its sender was handed off before |
| WebhookOutcomes.CounterCountsHits | app/concurrency/rate_limit.py:12-21 | Over any traffic the limiter's key counts the hits of the sender's latest window, which began with the first hit after the one before was over |
| WebhookOutcomes.FloodedExactly | app/main.py:375-380 | A message floods if and only if it reaches the limiter and its sender's hits in the current window, itself included, exceed the threshold |
| WebhookOutcomes.BufferedExactly | app/main.py:382-396 | A message overflows if and only if it passes the limiter and more than the maximum would then be waiting, and is buffered, and timed, if and only if it passes and fits |
| InboundRelay.Parse | app/crm/kommo_inbound.py:75-103 | A payload is parsed if and only if it is an object with a non-blank text destination |
| InboundRelay.SendExactly | app/crm/kommo_inbound.py:75-133 | A payload is sent if and only if it is an object that names a conversation, is marked as a text and has one: that text, as it is, to the conversation's WhatsApp number |
| InboundRelay.Relay.Drain | app/crm/kommo_inbound.py:106-139 | A lone drain empties the queue and attempts exactly the relayable messages, first in first out, whichever sends fail |
| InboundRelay.StepOrphansExactly | app/crm/kommo_inbound.py:52-72 | What every event does, raising pops and dying drains and webhooks included: a message is orphaned exactly when the last one alive is stopped short, and only a push ends it |
| InboundRelay.OrphanedExactly | app/crm/kommo_inbound.py:106-139 | In every run payloads are popped in the order pushed, and one is orphaned if and only if the event before stopped the last drain or webhook short |
| InboundRelay.LostExactly | app/crm/kommo_inbound.py:106-139 | A payload is lost if and only if its drain died with it in hand, or the pop that took it raised |
| InboundRelay.EachRelayedOnce | app/crm/kommo_inbound.py:106-139 | Once every drain is done, a payload popped was dealt with, and once, if and only if it was not lost |
| InboundRelay.FailedPopOrphans | app/crm/kommo_inbound.py:118-122 | A pop that raises leaves the message with nobody to relay it |
| InboundRelay.DeadDrainsLoseAndOrphan | app/crm/kommo_inbound.py:116-133 | Drains that die lose the message in hand and orphan the next one, though no pop and no webhook failed |
| Retry.Gemini.CompleteStructured | app/llm/gemini.py:51-73 | One re-roll for an answer that does not fit, none for a failed call |
| Retry.AttemptExactly | app/llm/gemini.py:51-73 | An attempt gives the first answer that fits, asks again only for one that does not, and never repeats a failed call |
| Retry.AllTransientExactly | app/llm/retry.py:46-58 | "Every attempt failed transiently" is said of each attempt, wherever it starts |
| Retry.PausesDouble | app/llm/retry.py:60-63 | The first pause is the base, each next one twice the last, and none over the cap |
| Retry.RetryingLlm.CompleteStructured | app/llm/retry.py:46-63 | Unavailable if and only if every attempt failed transiently; otherwise the first other attempt decides; at most twice as many model calls as attempts, and sleep within the bound |
| Retry.SleepIsBounded | app/llm/retry.py:60-63 | Sleep is at most the smaller of the capped and the doubling sum, plus jitter |
| Retry.ShippedSleep | app/llm/retry.py:23-25 | At most five seconds with the shipped settings |
| Sweeper.Sweep.FindExpiredDeadlines | app/storage/postgres.py:35-40 | Exactly the collecting conversations whose deadline has passed, each once |
| Sweeper.QueryFindsTheDue | app/storage/postgres.py:35-40 | The query on the stored objects finds exactly those whose record is due; one stored without a deadline is in no sweep |
| Sweeper.PhoneExactly | app/domain/handoff_orchestration.py:85-89 | A sender's phone is what follows the channel's prefix, and leads back to the sender |
| Sweeper.HandOffSilently | app/domain/inactivity.py:27-70 | The silent handoff of one record is what the state machine does, and unless a call fails leaves it handed off with the flag up, and, if it had no contact, with a lead of its phone and that lead's contact on record |
| Sweeper.Sweep.SweepOne | app/concurrency/inactivity.py:59-88 | The lock from the key's lease, a fresh check and the handoff: with the lock free and no call failing the conversation is no longer due and, if it had no contact, has on record a lead of the number that follows the channel's prefix; it raises exactly when its lock cannot be asked for or given back |
| Sweeper.Sweep.SweepOnce | app/concurrency/inactivity.py:37-56 | Whatever others do meanwhile, a conversation the sweep got past is no longer due unless its lock was held or a call of its own failed; the sweep completes if and only if it started and no lock request or release raised |
| Sweeper.FailedReleaseStopsTheSweep | app/concurrency/inactivity.py:84-88 | With every lock free and every handoff going through, a release that raises stops the sweep at the first conversation |
| Sweeper.TurnsSettle | app/domain/orchestrator.py:364-368 | A turn whose new deadline lies in the future makes no conversation due |
| Flush.Flusher.Run | app/concurrency/flush.py:131-191 | A flush that finds the lock taken touches nothing; one that gets it drains the whole buffer into at most one turn and sends that turn's reply, nothing after a silent one, the fallback if the model was down and the apology for any other error; and, however it ends, gives the lock back if it is still its own |
| Flush.JoinHolds | app/concurrency/flush.py:159 | The turn's text contains every drained message whole |
| Flush.JoinSplits | app/concurrency/flush.py:159 | And in order: cut anywhere, it is the first messages, the separator and the rest |

## Left out

- The wording of prompts, farewells, re-asks and acknowledgements, and the joining of the stuck note's labels into one text; whether a question was answered from the corpus.
- Extraction by the language model: an arbitrary result of the trip's own type. Classification of the first message into a trip: an arbitrary result or none.
- Slot names are structured values rather than strings, so their spelling and alphabetical order do not appear; the CRM's listing of pending slots is any order without repetition.
- The text of the stored JSON and its Postgres encoding; stored values of a wrong type. The order that sorts slot names is any total order.
- Names given to created leads and contacts; HTTP clients, signing, signature checks and malformed webhooks; the mirror of customer messages into the CRM chat; reading the AlreadyExists body of a refused link.
- Floating-point rounding: times, delays and deadlines are reals. The event loop's clock and Redis's are one clock in the webhook.
- Delivery.AbandonedExactly: a restart loses the timers in one step, and the flushes it kills die one by one after it.
- Redis commands and MULTI/EXEC are single steps; INCR and EXPIRE are one step, so a counter without a TTL does not arise.
- Search results are assumed exact and leads are never removed by others while a handoff is retried; others may add leads and contacts.
- Protocol.Advance: the protocol is a step machine over one sender's awaits rather than methods on shared objects; other senders appear only as additions to the CRM, and aliasing between senders' state is not modelled.
- Handoff.RunInactivityHandoff: the method is proved with nobody else moving; interleavings are proved on the state machine it refines.
- Sweeper.Sweep.SweepOnce: what others do to the records, flags and CRM happens before each conversation is reached, as any function that makes nothing due; while one is being handed off nobody else moves (interleavings are on the state machine). Its lock's lease is given as found on reaching it.
- Flush.Flusher.Run: the turn is a function from the joined text to how it ends; the turn itself is in `TurnLogic` and `Protocol`. Others appear only as what the key holds once the lease has run out.
- HandoffRuns.HandoffRunner.Execute: a reused lead that is deleted between the search and the PATCH is not modelled.
- Retry.RetryingLlm.CompleteStructured: `max_attempts` of zero, which would raise an assertion, is excluded.
- The TEMP DIAG logging of a turn, apart from the attempt count inside it; logging in general.
