# A verified model of the MovIA sales engine

The engine answers a lead over many turns. Around the calls to a language model it
keeps deterministic machinery: an analyzer payload is repaired and validated against
the message, a turn is planned by a fixed order of priorities, a stage machine and an
objection machine follow the plan, a ledger records what the lead needs, a check
removes questions from the reply, a store keeps the last messages, and workers send
follow-ups. This project models that machinery in Dafny and proves what holds on every
run, taking the analyzer's observation, the reply-frame and requirement resolutions,
the message and the payment status of every turn as free inputs.

## How to read it

| files | what they hold |
|---|---|
| `Commercial`, `Observations`, `Leads` | the vocabulary, the analyzer's observation, the stored lead |
| `Evidence`, `ActionCount`, `Sanitizer`, `Validation`, `Acceptance` | the evidence relation, the repair pass, the strict model and the re-check |
| `Requirements`, `RequirementLists`, `RequirementDelta` | the ledger as values, the same operations in place on shared entries, the delta of a turn |
| `Normalizer`, `LeadState`, `Planner`, `Stages`, `Objections`, `Fulfillment` | one turn, node by node |
| `Engine` | the turn as a whole: a specification on values and the stored lead overwritten in place |
| `Runs` | runs of any state machine, induction and refinement over them |
| `Conversations`, `CloseSafety`, `StageSafety`, `Promises`, `Guarantees` | what holds over whole conversations |
| `Witnesses` | concrete conversations that reach the situations the findings name |
| `FollowUp`, `MemoryStores`, `Replies` | the claim protocol, the message buffers, the reply check |

Code that works in place is a class or a method with loops, proved equal to a function
of the old state; what the program promises is proved about that function. Theorems
over conversations are stated for any policy that keeps the promises `Sound`;
`Engine.ThePlannerKeeps` shows that the planner does, and `Guarantees` instantiates
the main ones for the planner and a fresh lead. `dafny verify dfyconfig.toml` checks
everything.

## What is assumed

- Text normalisation is a function `norm`. The theorems about quoted spans need only
  that a slice's normal form is an infix of the message's; `Evidence` proves it, and
  idempotence, for lower-casing, accent folding and blank squeezing over an arbitrary
  table from characters to texts whose outputs are fixed points.
- Cue tables are arbitrary ordered lists of phrases; product names are assumed to have
  a non-empty normal form, and white space an empty one where `Acceptance` says so.
- Fixed phrase lists tried on a message by the planners are booleans of the turn
  (`MessageCues`), free in every theorem.
- For the reply check, the characters of the engine's own two sentences are lowered as
  usual and a blank is white space.
- Clocks never run backwards in the follow-up protocol.

## Findings

- `Witnesses.AnObjectionMovesTheSaleBack`: the stage remembered when an objection opens is
  never cleared, so a later objection can move the sale back; six messages from a fresh
  lead do it, and `StageSafety.WhenHandlingMovesTheSale` says exactly when.
- `Objections.OverlayFollowsObjection`: the three views of "an objection is open" disagree
  in exactly two situations; `Witnesses.RaisedByABuyer` and
  `Witnesses.RaisedAndResolvedAtOnce` reach them.
- `StageSafety.OneTurnCleansTheStages`: the objection stage can survive inside a stored
  objection, exactly as long as that objection is carried over.
- `Planner.PlanIsSound`: one plan breaks the published table of micro actions, exactly the
  post-purchase plan without confirmed payment.
- `ActionCount.CountLostAfterABlank`: match positions count blanks, the index map does not,
  so a declared count can be dropped although it is literally present;
  `ActionCount.ExtractedExactly` says exactly when one is found.
- `FollowUp.LateMarkSendsTwice`: marks do not check the claim, so one by a worker whose
  claim was taken over can reopen a sent attempt; `FollowUp.FinalRowFate` says exactly
  which marks change a final row.
- `Fulfillment.Needed`: the need "product fit" always arises, since the stored class is
  the non-empty text `unknown` when nothing is known; hence products are always loaded.

## Model

| member | source | states |
|---|---|---|
| `Guarantees.EngineClosesSafely` | src/movia_sales_agent/agent/planners.py:428-456 | from a fresh lead, every DIRECT_CLOSE of the planner has explicit start intent, is no post-purchase turn, rests on Captura or Híbrido committed to in this conversation and covering the ledger, has no blocking flag, ends at CLOSING with no active objection |
| `Guarantees.EngineKeepsObjections` | src/movia_sales_agent/agent/objections.py:34-117 | from a fresh lead, a blocking objection is the same blocking objection after any continuation in which no message resolves it, or raises another hard one, in words it contains; its update turn counts the messages |
| `Guarantees.EngineTurnsAreCoherent` | src/movia_sales_agent/agent/stages.py:190-205 | in every turn from a reached lead the stored mode, the overlay and the stored objection agree but in two named situations, and the planned question is open |
| `Guarantees.EngineRemembersRequirements` | src/movia_sales_agent/agent/requirements.py:328-378 | an external action is active for a reached lead exactly when the last delta of the conversation that touched it added it and did not remove it |
| `Guarantees.ReachedLeadsAreSound` | src/movia_sales_agent/agent/graph.py:628-683 | every stored lead reached from a fresh one has a sound objection, a ledger that satisfies its invariant, and no stage field at post-purchase or objection handling |
| `Engine.StoredLead.constructor` | src/movia_sales_agent/db/repository.py:106-133 | a new lead is stored at stage new with an empty profile |
| `Engine.StoredLead.Learn` | src/movia_sales_agent/db/repository.py:240-248 | an empty text never overwrites a known business type, channel or pain; the profile is replaced |
| `Engine.StoredLead.Save` | src/movia_sales_agent/db/repository.py:250-273 | stage, mode, objection and last action are overwritten; an absent previous or remembered stage leaves the stored one in place |
| `Engine.StoredLead.Turn` | src/movia_sales_agent/agent/graph.py:111-131 | one turn of the graph leaves the stored lead, the plan and the reply policy that the specification of a turn describes |
| `Engine.StoredLead.Finish` | src/movia_sales_agent/agent/graph.py:449-476 | stage transition, objection flow and fulfilment policy run in that order on the planned state |
| `Engine.ThePlannerKeeps` | src/movia_sales_agent/agent/planners.py:95-339 | the planner keeps all promises of Sound in every state, so every theorem about policies that keep them applies to it |
| `Engine.TurnIsProper` | src/movia_sales_agent/agent/graph.py:111-131 | every turn plans soundly, forgets nothing known and changes of the lead only what it learns, its stages, mode, objection and last action |
| `Conversations.RunKeepsSoundLead` | src/movia_sales_agent/agent/objections.py:43-117 | the invariant of stored objections and of the ledger holds after every run |
| `Conversations.HardObjectionSurvives` | src/movia_sales_agent/agent/objections.py:34-117 | an active hard objection keeps its type, start and remembered stage through every undisturbed run, and its update turn grows by exactly one for each message |
| `Conversations.UndisturbedNeitherClosesNorSupersedes` | src/movia_sales_agent/analyzer/normalizer.py:440-480 | without quoted resolution and without another quoted hard objection a turn can neither close nor replace the open one |
| `CloseSafety.CloseableFitsTheLedger` | src/movia_sales_agent/agent/planners.py:428-456 | a state that can close has no active sales capability; with external actions active the product is Híbrido and the declared count at most two; with only informational ones it is Captura |
| `CloseSafety.CloseLeavesNothingOpen` | src/movia_sales_agent/agent/planners.py:177-185 | a close moves the lead to CLOSING from any stage and leaves no objection active |
| `CloseSafety.RunTracesChoices` | src/movia_sales_agent/analyzer/normalizer.py:565-598 | on every run the selected product is an available one that some turn committed to, and nothing is ever confirmed |
| `CloseSafety.EveryCloseIsSafe` | src/movia_sales_agent/agent/planners.py:428-456 | the close guarantees for any sound starting lead and any policy that keeps its promises |
| `CloseSafety.EveryCloseWasCommittedTo` | src/movia_sales_agent/agent/graph.py:244-262 | the product of a close was selected by a quoted commitment with a quoted start, or by accepting the offered link |
| `CloseSafety.PlainStartCloses` | src/movia_sales_agent/agent/planners.py:177-185 | a message that quotes a commitment and a start and nothing else does close: the guarantees are not vacuous |
| `StageSafety.OneTurnCleansTheStages` | src/movia_sales_agent/agent/stages.py:171-187 | from any stored lead, legacy values included, one turn leaves none of the three stage fields of the lead at objection handling or a legacy name; the stage remembered inside the objection is left there exactly when it was there and the objection is carried over |
| `StageSafety.MemoryOfTheObjection` | src/movia_sales_agent/agent/objections.py:34-117 | the remembered stage of an objection carried over is kept, that of a new one is the one the move remembers, and without an objection there is none |
| `StageSafety.EveryChangeIsLegal` | src/movia_sales_agent/agent/stages.py:104-168 | CLOSING is entered on a close, HANDOFF by a handover plan and left by a close only, NEW is never re-entered, every other change is an edge of the table |
| `StageSafety.PostPurchaseIsUnreachable` | src/movia_sales_agent/agent/stages.py:23-100 | from a fresh lead no stage field ever holds POST_PURCHASE |
| `StageSafety.WhenHandlingMovesTheSale` | src/movia_sales_agent/agent/planners.py:664-674 | a HANDLE_OBJECTION turn changes the stage if and only if the objection remembers another stage and the table leads there |
| `StageSafety.HandlingObjectionsDoesNotMoveTheSale` | src/movia_sales_agent/agent/stages.py:121-138 | any run of HANDLE_OBJECTION turns leaves the stage of an anchored lead unchanged |
| `StageSafety.RunRemembersTogether` | src/movia_sales_agent/agent/stages.py:124-130 | on runs from a fresh lead a blank remembered stage and a valid current one already make the lead anchored |
| `StageSafety.StaleMemoryMovesTheSale` | src/movia_sales_agent/db/repository.py:262-263 | the remembered stage is never cleared: a second objection at another stage moves the sale back to the first one |
| `Witnesses.SaidState` | src/movia_sales_agent/agent/graph.py:332-422 | a message that says nothing of what the lead wants leaves the lead as it is, and its state is known up to the relation to the open objection |
| `Witnesses.OldObjectionIsForgotten` | src/movia_sales_agent/db/repository.py:262-263 | price question, objection, its resolution with a comparison, the comparison again: the lead is comparing, has no objection and still remembers educating |
| `Witnesses.AnObjectionMovesTheSaleBack` | src/movia_sales_agent/agent/planners.py:664-674 | two more objections in that conversation of the real planner from a fresh lead: both are handled, the second moves the sale from comparing to educating |
| `Witnesses.RaisedByABuyer` | src/movia_sales_agent/agent/planners.py:97-107 | a first message with a hard objection that claims a purchase: the turn blocks, stores no objection, and its micro action is not in the published table |
| `Witnesses.RaisedAndResolvedAtOnce` | src/movia_sales_agent/agent/planners.py:701-776 | an objection repeated and called resolved in one message: the turn blocks and the objection is closed |
| `Witnesses.ObjectionStageStays` | src/movia_sales_agent/models/schemas.py:129-145 | a stored objection that remembers the objection stage remembers it through every undisturbed conversation |
| `Promises.ViewsAgree` | src/movia_sales_agent/agent/planners.py:701-776 | mode is handling exactly when the overlay blocks; both agree with the stored objection exactly outside the two exceptions |
| `Promises.KnownIsNeverAskedAgain` | src/movia_sales_agent/agent/memory.py:76-104 | over runs, once business, channel, pain or requirement is known it is never again the planned question |
| `Promises.LedgerIsItsHistory` | src/movia_sales_agent/agent/graph.py:332-346 | the ledger after a conversation is the run of the deltas of its turns, all of them consistent |
| `Promises.RequirementsFollowTheConversation` | src/movia_sales_agent/agent/requirements.py:533-560 | last writer wins, for informational, sales and action types, over whole conversations |
| `Promises.EvidenceIsNeverLost` | src/movia_sales_agent/agent/objections.py:208-213 | while an objection lasts every message once logged as its evidence stays logged |
| `Planner.PlanIsSound` | src/movia_sales_agent/agent/planners.py:95-339 | every plan in every branch keeps the question contract, the micro action table (but for the unpaid post-purchase plan), the exact conditions for handling and closing, the flow steps, the targets and its overlay |
| `Planner.FinalizedKeeps` | src/movia_sales_agent/agent/planners.py:484-524 | finishing a plan changes its question and overlay only; after it the call to action is a question exactly when a key is present, and the key is not forbidden |
| `Planner.PrioritisedMicros` | src/movia_sales_agent/contracts/commercial.py:318-414 | the micro action is one the published table allows for the macro action exactly when the turn is not an unpaid post-purchase one |
| `Planner.PrioritisedMoves` | src/movia_sales_agent/agent/planners.py:97-185 | when objections are handled and closes made, as an if-and-only-if on the state, whatever the rest of the policy would do |
| `Planner.SalesDraftShape` | src/movia_sales_agent/agent/planners.py:187-339 | no plan outside objections and closes handles, closes, targets closing, post-purchase or objection handling, or breaks the table; it targets a handoff exactly when it hands over |
| `LeadState.NextQuestionIsAllowed` | src/movia_sales_agent/agent/memory.py:158-164 | the next question is never forbidden and is absent exactly when all four are |
| `LeadState.UpdateOnlyLearns` | src/movia_sales_agent/agent/graph.py:332-422 | updating a lead forgets no known fact and touches neither stages nor objection nor last action |
| `LeadState.UpdateKeepsLedger` | src/movia_sales_agent/agent/graph.py:332-346 | the ledger invariant is kept by the delta of every turn |
| `LeadState.NeverConfirms` | src/movia_sales_agent/agent/commercial_state.py:11-78 | no turn confirms a product; the stored selection changes only to the selection of the turn |
| `LeadState.ContextIsNeverInvented` | src/movia_sales_agent/agent/commercial_state.py:11-78 | no product of a context is invented or unknown; the selection of the turn wins, then the one product the message is about |
| `TurnNormalizer.ReferencesAreQuoted` | src/movia_sales_agent/analyzer/normalizer.py:531-554 | exactly the literally quoted references are kept |
| `TurnNormalizer.AdmittedIsQuoted` | src/movia_sales_agent/analyzer/normalizer.py:131-135 | of the problems exactly those whose type is quoted literally reach the ledger, of the declared counts a literally quoted one |
| `TurnNormalizer.ResolutionIsQuoted` | src/movia_sales_agent/analyzer/normalizer.py:440-480 | the relation RESOLVED reaches the planner exactly when it was observed, an objection is open and the span is literal |
| `TurnNormalizer.SelectionIsCommitted` | src/movia_sales_agent/analyzer/normalizer.py:565-598 | a selected product is available and comes from a quoted commitment with a quoted start or from an accepted link |
| `Stages.Transition` | src/movia_sales_agent/agent/stages.py:104-154 | the service, rebinding its locals, computes the specified move |
| `Stages.NoMoveStoresObjectionHandling` | src/movia_sales_agent/agent/stages.py:104-154 | no move ends at, comes from or remembers the objection stage |
| `Stages.ChangesFollowTheTable` | src/movia_sales_agent/agent/stages.py:157-168 | every change of stage is an edge, a close or a handover; an invalid transition changes nothing |
| `Objections.ActiveObjection.Transition` | src/movia_sales_agent/agent/objections.py:34-117 | the service, overwriting fields in place or building a new object, leaves the specified objection |
| `Objections.ActiveObjection.Settle` | src/movia_sales_agent/agent/objections.py:46-57 | in place: resolved by the meaning of the message |
| `Objections.ActiveObjection.HandleInline` | src/movia_sales_agent/agent/objections.py:61-67 | in place: a soft concern is closed in passing |
| `Objections.ActiveObjection.Pause` | src/movia_sales_agent/agent/objections.py:68-74 | in place: paused, not dropped, when another intent is answered |
| `Objections.ActiveObjection.Continue` | src/movia_sales_agent/agent/objections.py:96-115 | in place: the flow moves to the planned step and ends only at its two last steps |
| `Objections.BlockingObjectionHasThreeFates` | src/movia_sales_agent/agent/objections.py:34-117 | a blocking objection is resolved, replaced or endures under exact and exclusive conditions on the turn; it is paused exactly when the plan does not handle it |
| `Objections.OnlyHardObjectionsOpen` | src/movia_sales_agent/agent/objections.py:164-175 | an objection is opened exactly by a hard one in a turn that hands nothing over |
| `Objections.ObjectionStaysSound` | src/movia_sales_agent/agent/objections.py:43-117 | active implies hard, a real type, an open step and a start; status follows from the flags; the update turn grows by one while active |
| `Objections.NextStepMoves` | src/movia_sales_agent/agent/planners.py:608-637 | the next step of an open objection never restarts the flow and leaves it exactly when the relation is RESOLVED |
| `Objections.ModeFollowsOverlay` | src/movia_sales_agent/agent/stages.py:190-205 | the mode says handling exactly when the overlay blocks a close |
| `Objections.OverlayFollowsObjection` | src/movia_sales_agent/agent/planners.py:701-776 | overlay and stored objection agree if and only if neither exception occurs |
| `Objections.EvidenceAccumulates` | src/movia_sales_agent/agent/objections.py:208-213 | appending to the evidence logs the message and keeps everything logged before |
| `Fulfillment.BuildPolicy` | src/movia_sales_agent/agent/fulfillment.py:32-61 | the stepwise policy is the specified one; a question is never just suppressed |
| `Fulfillment.KnowledgeNeeds` | src/movia_sales_agent/agent/planners.py:1496-1615 | the appended and deduplicated list holds exactly the needs whose condition holds, each once |
| `Fulfillment.Tables` | src/movia_sales_agent/agent/planners.py:1443-1483 | exactly the tables the turn needs, each once; products always |
| `Fulfillment.Playbooks` | src/movia_sales_agent/agent/planners.py:1441-1476 | exactly the playbooks the turn needs, each once |
| `Fulfillment.Dedupe` | src/movia_sales_agent/agent/planners.py:1618-1626 | each member once, in the order of first occurrence, as the set of seen values finds them |
| `Fulfillment.FirstsMeaning` | src/movia_sales_agent/agent/planners.py:1618-1626 | no repeats, the same members, and of two members the one that occurs first comes first |
| `Fulfillment.EveryCloseIsFulfilled` | src/movia_sales_agent/agent/fulfillment.py:68-79 | on a close the app link is owed, the minimal question is about the app, and products, policies, links and platform steps are loaded |
| `Requirements.MergeItemsEffect` | src/movia_sales_agent/agent/requirements.py:533-545 | merging makes active exactly the old and the new types, appends only and stamps no future |
| `Requirements.DeactivateItemsEffect` | src/movia_sales_agent/agent/requirements.py:548-553 | deactivating removes exactly the named types from the active ones and keeps every entry |
| `Requirements.DeactivateAllEffect` | src/movia_sales_agent/agent/requirements.py:556-560 | nothing is active afterwards and every entry is kept |
| `Requirements.ListStepEffect` | src/movia_sales_agent/agent/requirements.py:328-361 | one merge of one list is (A + N) - R, or N - R on replace |
| `Requirements.SourcesIndexEntries` | src/movia_sales_agent/agent/requirements.py:563-583 | the derived sources hold exactly the source turn and activity of each type |
| `Requirements.StepKeepsInvariant` | src/movia_sales_agent/agent/requirements.py:328-378 | every merge keeps the representation invariant and the first confirmation |
| `Requirements.LedgerInvariantOnEveryRun` | src/movia_sales_agent/agent/requirements.py:328-393 | the representation invariant holds on every run: unique types, no stamp from the future, removal stamps on inactive entries, derived class and sources |
| `Requirements.RunOnlyGrows` | src/movia_sales_agent/agent/requirements.py:533-560 | types are append-only, observed problems only grow, the first confirmation is set once |
| `Requirements.RunIsSetAlgebra` | src/movia_sales_agent/agent/requirements.py:328-378 | a run of merges refines the set algebra of the three lists |
| `Requirements.LastWriterWins` | src/movia_sales_agent/agent/requirements.py:328-378 | a type is active exactly when the last delta that touched it added it and did not also remove it |
| `RequirementLists.EntryList.MergeItems` | src/movia_sales_agent/agent/requirements.py:533-545 | in place, on shared entry objects, the specified merge |
| `RequirementLists.EntryList.DeactivateItems` | src/movia_sales_agent/agent/requirements.py:548-553 | in place, the specified deactivation |
| `RequirementLists.EntryList.DeactivateAll` | src/movia_sales_agent/agent/requirements.py:556-560 | in place, the specified deactivation of everything |
| `RequirementLists.EntryCell.Update` | src/movia_sales_agent/agent/requirements.py:536-543 | an existing entry takes over the new detail, is active and stamped, and keeps an old source when none is given |
| `RequirementLists.EntryCell.Close` | src/movia_sales_agent/agent/requirements.py:551-553 | an entry is inactive and stamped as removed |
| `RequirementLists.EntryList.Apply` | src/movia_sales_agent/agent/requirements.py:335-361 | the phases of one merge on one list, in place, are the specified step |
| `RequirementLists.MergeThroughCopy` | src/movia_sales_agent/agent/requirements.py:193-201 | a merge through a copied list shows through the original list, entry by entry, but for newly opened entries |
| `RequirementDelta.DedupeEntries` | src/movia_sales_agent/agent/requirements.py:586-595 | the first entry of each type, in order |
| `RequirementDelta.DedupeItemsMeaning` | src/movia_sales_agent/agent/requirements.py:586-595 | the same types, each once |
| `RequirementDelta.TurnDeltaIsLegitimate` | src/movia_sales_agent/agent/requirements.py:204-325 | a delta classified as no update carries none, and each capability is in the list of its kind |
| `RequirementDelta.ActionsReachTheDelta` | src/movia_sales_agent/agent/requirements.py:223-264 | the delta asks for exactly the actions observed, resolved or implied by an answer to the planner that has evidence |
| `RequirementDelta.CapabilitiesReachTheDelta` | src/movia_sales_agent/agent/requirements.py:218-269 | every capability asked for is in exactly the list of its kind |
| `RequirementDelta.SilentTurnKeepsTheLedger` | src/movia_sales_agent/agent/requirements.py:295-313 | a turn that asks for nothing and drops nothing leaves the ledger as it is |
| `RequirementDelta.CountFollowsTheDelta` | src/movia_sales_agent/agent/requirements.py:340-342 | the count in force is the last declared one, unless the scope was replaced without one |
| `RequirementDelta.RecommendationFitsTheScope` | src/movia_sales_agent/agent/requirements.py:404-417 | Captura, Híbrido and neither are recommended for exactly the scopes they serve |
| `Evidence.SliceLaw` | src/movia_sales_agent/analyzer/contract_v3.py:1067-1072 | the normal form of any slice of a message is an infix of the normal form of the message |
| `Evidence.NormalizeIdempotent` | src/movia_sales_agent/analyzer/contract_v3.py:1067-1072 | normalising a normal form changes nothing |
| `Evidence.SpanOfNormalForm` | src/movia_sales_agent/analyzer/contract_v3.py:458-461 | a span or a message may be replaced by its normal form without changing whether the span is evidence |
| `Evidence.SpanTransitive` | src/movia_sales_agent/analyzer/contract_v3.py:458-461 | evidence inside literal evidence is literal evidence |
| `ActionCount.SubstringByNormalizedSlice` | src/movia_sales_agent/analyzer/contract_v3.py:1417-1431 | whatever slice is cut is accepted as literal evidence |
| `ActionCount.ExtractDeclaredActionCount` | src/movia_sales_agent/analyzer/contract_v3.py:1369-1398 | a count is extracted if and only if a non-zero number or a number word is matched within reach of the index map; digits come first, then the first word in reach; the count lies in 1..99 and is quoted literally |
| `ActionCount.QuotedWhenInReach` | src/movia_sales_agent/analyzer/contract_v3.py:1417-1431 | a match can be quoted if and only if it starts within reach of the index map |
| `ActionCount.WordCountMeaning` | src/movia_sales_agent/analyzer/contract_v3.py:1386-1398 | a number word is returned if and only if some word of the table is matched within reach, and it is the first of these |
| `ActionCount.ExtractedExactly` | src/movia_sales_agent/analyzer/contract_v3.py:1369-1398 | the exact condition under which a count is extracted, and which count it is |
| `ActionCount.CountLostAfterABlank` | src/movia_sales_agent/analyzer/contract_v3.py:1369-1431 | under the normaliser of the analyzer the count of "a 2" is matched and literally present, cannot be quoted, and nothing is extracted |
| `ActionCount.PlainTables` | src/movia_sales_agent/analyzer/contract_v3.py:1067-1072 | character tables with the properties used for that message exist |
| `ActionCount.DigitMatch` | src/movia_sales_agent/analyzer/contract_v3.py:1369-1398 | a stand-alone number found is at most 99 and covers at least one character |
| `ActionCount.WordMatch` | src/movia_sales_agent/analyzer/contract_v3.py:1369-1398 | a number word found has its value and covers at least one character |
| `ActionCount.FirstWord` | src/movia_sales_agent/analyzer/contract_v3.py:1386-1398 | the first number word of the table that is found within reach, with its value; none exactly when there is none |
| `Sanitizer.FirstMatch` | src/movia_sales_agent/analyzer/contract_v3.py:1060-1064 | the cue returned is evidence in the text; if none is, no cue is |
| `Sanitizer.NameInMessage` | src/movia_sales_agent/analyzer/contract_v3.py:678-697 | the product name returned occurs in the message |
| `Sanitizer.RepairProblem` | src/movia_sales_agent/analyzer/contract_v3.py:714-733 | a repaired problem keeps its type and quotes literally |
| `Sanitizer.FirstMatchStable` | src/movia_sales_agent/analyzer/contract_v3.py:1060-1064 | the first cue found in a text is the first cue found in that cue |
| `Sanitizer.RepairNarrowedSurvives` | src/movia_sales_agent/analyzer/contract_v3.py:736-765 | a capability or action survives exactly when a cue occurs in its literal span, or else in the message |
| `Sanitizer.DedupeMeaning` | src/movia_sales_agent/analyzer/contract_v3.py:1554-1575 | one reference per product, none lost, none outranked |
| `Sanitizer.DedupeKeepsTheBest` | src/movia_sales_agent/analyzer/contract_v3.py:1554-1575 | of each product the first reference of the highest rank is kept, and products stay in the order of first mention |
| `Sanitizer.DedupeProductReferences` | src/movia_sales_agent/analyzer/contract_v3.py:1554-1575 | the dictionary and key order compute that deduplication |
| `Sanitizer.SanitizeBusinessProblems` | src/movia_sales_agent/analyzer/contract_v3.py:714-733 | the loop computes the specified repair |
| `Sanitizer.SanitizeRequested` | src/movia_sales_agent/analyzer/contract_v3.py:862-889 | the loop computes the specified repair of capabilities and actions, with full-message narrowing |
| `Sanitizer.SanitizeProductReferences` | src/movia_sales_agent/analyzer/contract_v3.py:678-697 | the loop re-derives each reference from the message and deduplicates |
| `Sanitizer.PayloadCopy.SanitizeObjection` | src/movia_sales_agent/analyzer/contract_v3.py:768-795 | in place, the specified repair of the objection |
| `Sanitizer.PayloadCopy.SanitizeRelation` | src/movia_sales_agent/analyzer/contract_v3.py:700-711 | in place, the specified repair of the relation |
| `Sanitizer.PayloadCopy.SanitizeReadiness` | src/movia_sales_agent/analyzer/contract_v3.py:798-809 | in place, the specified repair of the readiness |
| `Sanitizer.PayloadCopy.SanitizePrior` | src/movia_sales_agent/analyzer/contract_v3.py:812-826 | in place, the specified repair of the prior reference |
| `Sanitizer.PayloadCopy.SanitizePostPurchase` | src/movia_sales_agent/analyzer/contract_v3.py:829-843 | in place, the specified repair of the post-purchase signal |
| `Sanitizer.PayloadCopy.SanitizeCount` | src/movia_sales_agent/analyzer/contract_v3.py:846-859 | in place, the specified repair of the declared count |
| `Sanitizer.SanitizePayload` | src/movia_sales_agent/analyzer/contract_v3.py:401-455 | the sanitiser leaves the specified payload on a copy of its own |
| `Sanitizer.RepairProductsStable` | src/movia_sales_agent/analyzer/contract_v3.py:678-697 | sanitised references are unique, named in the message, and fixed under sanitising |
| `Sanitizer.SanitizeIdempotent` | src/movia_sales_agent/analyzer/contract_v3.py:401-455 | sanitising a sanitised payload changes nothing, for every message |
| `Validation.SanitizedSpansAreLiteral` | src/movia_sales_agent/analyzer/contract_v3.py:387-398 | when the model accepts a sanitised payload every span it quotes is literal |
| `Validation.LiteralSpansPass` | src/movia_sales_agent/analyzer/contract_v3.py:655-675 | with literal spans the re-check of the ten evidence paths reports nothing |
| `Validation.ValidateAnalyzerObservation` | src/movia_sales_agent/analyzer/contract_v3.py:387-398 | sanitise, validate and re-check: the evidence re-check never rejects |
| `Acceptance.SanitizingKeepsAcceptance` | src/movia_sales_agent/analyzer/contract_v3.py:401-455 | a payload the model accepts as it stands is still accepted once sanitised |
| `Acceptance.ValidPayloadsAreAccepted` | src/movia_sales_agent/analyzer/contract_v3.py:387-455 | validation as a whole never rejects what the model alone accepts |
| `Acceptance.ProblemsKept` | src/movia_sales_agent/analyzer/contract_v3.py:714-733 | a problem is kept exactly when its span is literal or a cue is in the message; a literal span is untouched |
| `Acceptance.ObjectionKept` | src/movia_sales_agent/analyzer/contract_v3.py:768-795 | the same for an objection |
| `Acceptance.RelationKept` | src/movia_sales_agent/analyzer/contract_v3.py:700-711 | a relation is kept exactly when its span is literal |
| `Acceptance.ReadinessKept` | src/movia_sales_agent/analyzer/contract_v3.py:798-809 | a strong purchase signal is kept exactly when supported |
| `Acceptance.PriorKept` | src/movia_sales_agent/analyzer/contract_v3.py:812-826 | a prior reference is kept exactly when supported |
| `Acceptance.PostPurchaseKept` | src/movia_sales_agent/analyzer/contract_v3.py:829-843 | a post-purchase signal is kept exactly when supported |
| `Acceptance.CountKept` | src/movia_sales_agent/analyzer/contract_v3.py:846-859 | a declared count is kept exactly when supported |
| `FollowUp.AttemptRow.TryClaim` | src/movia_sales_agent/db/repository.py:593-642 | the upsert grants a claim exactly when the row is new, failed below the limit, or claimed and stale below the limit |
| `FollowUp.AttemptRow.MarkAs` | src/movia_sales_agent/db/repository.py:706-758 | marks overwrite status and count whatever the row was |
| `FollowUp.CandidatesCanBeClaimed` | src/movia_sales_agent/db/repository.py:567-578 | a lead is listed exactly when a claim at that moment would succeed |
| `FollowUp.ClaimsAreSeparated` | src/movia_sales_agent/db/repository.py:593-642 | with any workers, consecutive claims are separated by a failed mark or by more than twenty minutes, and the count is the number of sent and failed marks |
| `FollowUp.AtMostOneFollowUp` | src/movia_sales_agent/db/repository.py:593-642 | if every mark comes from the worker whose claim is the last and still unmarked, at most one message is sent and the count never exceeds the limit |
| `FollowUp.SentAndSkippedAreFinal` | src/movia_sales_agent/db/repository.py:706-758 | under that condition nothing changes a row that was sent or skipped, and no mark can follow |
| `FollowUp.FinalRowFate` | src/movia_sales_agent/db/repository.py:706-758 | with any marks at all, a sent or skipped row is unchanged at the end if and only if every later mark skipped a skipped attempt |
| `FollowUp.InTimeIsOwned` | src/movia_sales_agent/db/repository.py:593-642 | a worker who marks once and within twenty minutes holds the claim |
| `FollowUp.DisciplinedRunsAreOwned` | src/movia_sales_agent/db/repository.py:593-642 | so the results on held claims apply to every run in which all workers do |
| `FollowUp.LateMarkSendsTwice` | src/movia_sales_agent/db/repository.py:728-740 | one failed mark by a worker whose claim was taken over reopens a sent attempt and it is sent again |
| `MemoryStores.BackendsAgree` | src/movia_sales_agent/memory/store.py:28-48 | the trimmed list read backwards, the bounded deque and the last twelve messages are the same |
| `MemoryStores.ListSimulatesDeque` | src/movia_sales_agent/memory/store.py:32-39 | pushing to the front and trimming simulates appending to the deque |
| `MemoryStores.MemoryStore.DisableRedis` | src/movia_sales_agent/memory/store.py:25-26 | Redis is given up for good, and with it what it held |
| `MemoryStores.MemoryStore.AddRecent` | src/movia_sales_agent/memory/store.py:28-39 | one message more under its key, none lost under another; a failing Redis starts a new history |
| `MemoryStores.MemoryStore.Recent` | src/movia_sales_agent/memory/store.py:41-48 | the last twelve messages added under the key, in order, on either working backend |
| `Replies.SplitIsProse` | src/movia_sales_agent/agent/memory.py:373-373 | splitting a stripped reply gives sentences, all ended but perhaps the last |
| `Replies.SplitUndoesJoin` | src/movia_sales_agent/agent/memory.py:372-379 | splitting a join of sentences gives the sentences back |
| `Replies.KeepFacts` | src/movia_sales_agent/agent/memory.py:374-378 | exactly the sentences that ask a violated key are dropped |
| `Replies.ClosingAsksNothing` | src/movia_sales_agent/agent/memory.py:361-369 | the closing question asks none of the known keys |
| `Replies.CorrectedReplyRoundTrip` | src/movia_sales_agent/agent/memory.py:198-224 | a corrected reply splits into exactly the kept sentences, the last punctuated, or the fallback, and the closing question |
| `Replies.CorrectedReplyAsksNothingKnown` | src/movia_sales_agent/agent/memory.py:198-224 | no sentence of a corrected reply asks any forbidden key |

## Left out

- Question texts, commercial goals, reason codes and stage reasons: data carried along, decided by nothing that is modelled.
- Strengths and confidences of observations, secondary intents, urgency: not read by the planning modelled here; the topics of a turn are a free input instead of being derived from them.
- Retrieval queries, embeddings, token usage, telemetry, timestamps for reporting, Chatwoot, WhatsApp and Meta clients, the HTTP layer, the frontend: I/O.
- The disabled rule adapter, the retired cue helpers and the unused cue filters: never run.
- Repair of legacy objection payloads that lack keys, and of profiles stored with missing lists: a stored lead starts from typed values, with arbitrary content.
- The lists of all referenced products, the source label and the turn stamp of the product context: nothing that is modelled reads them.
- The known and missing slot lists of the planner state: planning reads the structured memory instead.
- How the reply frame of a turn is derived from the previous plan: the frame is a free input, so that every sequence of frames is covered.
- Retrieval of earlier turns for a reply that refers back, and the generation of the reply itself.
- Expiry of Redis keys and of cached values: time does not pass in the store modelled.
- Lower-casing that depends on neighbouring characters, such as the Greek final sigma: lowering is per character.
- The conditions of follow-up candidates on messages and stages: only the condition on the attempt row is modelled.
- Fulfillment.KnowledgeNeeds: the phrase lists searched in the message are cues of the turn, and the order of the needs is not specified, because nothing depends on it.
- StageSafety.HandlingObjectionsDoesNotMoveTheSale: stated for anchored leads, since it fails for others as `StaleMemoryMovesTheSale` shows; the exact condition for one turn is `WhenHandlingMovesTheSale`.
- Replies.CorrectedReplyAsksNothingKnown: says nothing of the test applied to the whole corrected text, in which a kept statement may contain a phrase and the closing question the question mark.
- FollowUp.AtMostOneFollowUp: for runs in which every mark comes from the worker who holds the claim, because marks in the program are unguarded and the statement fails for others as `LateMarkSendsTwice` shows.
- Engine.StoredLead.Learn: urgency and buying signal are not stored, and the profile is replaced as a whole where the program merges it key by key.
- Engine.StoredLead.Save: the reason code and text of the last decision and the timestamps are not stored.
