# A verified model of the assistant's gateway

The gateway turns a user's message into one run of a small state machine: a supervisor asks a routing
model what to do, tools run, and one reply is composed. Around that machine stand the parts that must
not go wrong whatever the models answer: the gate that shows a batch of writes to the user before it
runs, the two-tier store that remembers the shown plan, the cited answers of the Knowledge chat, the
local snapshot of the user's notes, the dates sent to a calendar, the names of uploaded files, and the
health report of the fund pollers. This project models those parts and proves what they promise.

Models and remote services are oracles: a routing model may decide anything or fail, a table request may
be refused, or carried out with its response lost, or arrive late, a stream may break anywhere. Numbers
that a deployment sets (the plan's TTL, the confirmation threshold, budgets, caps) are constants without
a value, so every result holds for all of them.

## Layout

| files | what they hold |
|---|---|
| `Calls`, `PendingPlans`, `PlanRaces`, `PlanFaults`, `PlanFreshness`, `StalePlans` | the plan store as classes; N processes whose memory and table steps interleave; which faults cost a plan its single use; exactly when a plan handed out is current, and runs in which it is not |
| `Router`, `RouterCode`, `Runs`, `Replies`, `Billing` | what one supervisor visit means; the same code statement by statement over the plan store; runs of the graph; what their reply is composed from; what they are billed of what they cost |
| `WriteGate` | what routing and the write gate do with a request, from what was asked for and what has run |
| `Conversations`, `Proposals`, `ApprovedBatches` | conversations of many turns over one store; the life of a proposal; the batch a go-ahead executes over the interleaved, failing store |
| `ParallelBatch` | a batch of calls on a bounded pool |
| `FairMerge`, `Passages`, `ChatTurn`, `ChatRounds`, `ChatHistory` | the Knowledge-chat turn: merging, numbering and budgeting passages, the round loop, citations; a whole turn from what is streamed and retrieved; history |
| `Vault`, `VaultListing`, `VaultCache`, `WrittenNotes`, `Preferences`, `ProfileRuns` | the notes snapshot; what its listing amounts to; exactly when its listing shortcut is right; what becomes of files the tool writes into it; the profile file; both together under the user's lock |
| `Gregorian`, `WeekDates`, `AllDay` | calendar days, week dates and their text; all-day events there and back, and the day count in a proposal |
| `Utf8`, `UploadNames`, `UploadStore`, `UploadOutcomes`, `UploadListing` | hardening a file name within a byte limit; storing a stream; which answer an upload gets; the names stored under and listed |
| `Pollers` | the health report under row limits |
| `Picks` | picking elements out of a sequence |

Code that changes state step by step is a class or a method with loops, proved equal to a function; the
properties are then lemmas about that function and about runs of it. `dafny verify dfyconfig.toml` checks
everything.

## Where the code does something its documentation does not say

- The store promises that a plan is single-use (`services/pending_plans.py:137-142`). It is, under a pattern of
  faults, if and only if the pattern lacks one of three things: that a row can reach the table, that a take's
  DELETE can be answered, that one can go unanswered (`PlanFaults.SingleUseIff`). So it holds with a table that is
  always reachable, or never, or whose POSTs fail while its DELETEs do not; with all three a plan can be released
  a second time (`PlanRaces.TwoReleasesHappen`), and never a third (`PlanRaces.AtMostTwice`).
- A turn that moves on clears its chat's plan so that a later "yes" cannot fire it (`orchestrator.py:1976-1980`), and
  the memory fallback is said to mean the same as the table, durability apart (`services/pending_plans.py:48-49`).
  Under faults neither holds. Over every schedule, a plan that is released was current when it was popped - neither
  replaced nor dropped - if and only if its tier was up to date: the request of the newest save or clear of that chat
  was the last the table had carried out, or that save or clear was the popping process's own
  (`PlanFreshness.ReleaseIsCurrentIff`). Otherwise a go-ahead can execute a plan that was replaced
  (`StalePlans.ReplacedPlanIsExecuted`) or that the user had moved on from (`StalePlans.DroppedPlanIsExecuted`), both
  when the table answers the take and when it does not. With a table that is always reachable and saves and clears of
  a chat that do not overlap, what the table holds is current (`PlanFreshness.OneAtATimeIsCurrent`).
- A confirming turn with no live plan on record runs the batch the router asked for in that turn, though
  nobody was shown it. `Conversations.UnshownBatchRunsIff` says exactly when; `Proposals.UnshownDeleteRuns` is a run
  in which a delete goes through.
- A comment in the router promises that token accounting reflects every model call
  (`orchestrator.py:1654-1657`). It does not: an attempt that times out, is refused or fails in transport reports
  nothing whatever it cost, so a retry that then succeeds already makes a bill short
  (`Billing.TimedOutAttemptIsNotBilled`); so does a failed native decision, a failed or broken-off attempt at composing,
  and a response without usage figures. The total of a native decision is never read, and a run that raises reports
  no usage at all. `Billing.UsageIsConserved` adds up everything that is dropped and says exactly when a bill is
  complete. (A run raises when the first native call names a known tool but its arguments do not fit the typed schema,
  which is checked outside any handler: `Runs.VisitRaisesIff`.)
- The chat whose id is the fallback's own text shares the fallback's slot: `PendingPlans.KeysSeparateChats`.
- The listing shortcut of the vault forgets nothing when a sync lists nothing, lacks ETags, or fails part-way. After
  any run, writes into the folder included, a sync leaves the bucket's notes if and only if what the last reset
  fetched, with what was written since, are those same notes (`VaultCache.SyncMirrorsIff`); a skip after an
  unremembered reset is right if and only if that reset fetched the same notes with the same bodies
  (`VaultCache.SkipAfterInterludeIff`). A note deleted and restored around a sync (`Vault.DeletedAndRestoredIsLost`),
  and one whose edit failed to download and was taken back (`VaultCache.FailedDownloadIsKept`), are missing after a
  sync that reports success. Nor is a listing as good as what was downloaded under it: later syncs of it are right if
  and only if every note was served at the body it was listed with (`VaultCache.RememberedIsRightIff`), so an edit
  made during a sync and then taken back stays in the folder (`VaultCache.EditUnderSyncIsKept`).
- A note that the tool writes is kept nowhere but in the folder (`tools/user_vault.py:150-156`). It is still there
  after a sync if and only if the sync skips or fetches that very body (`WrittenNotes.WrittenNoteStaysIff`), and
  recording a preference changes the listing, so the next sync drops it (`WrittenNotes.RecordingDropsNotes`). The tool
  can also write the profile, without the lock and without storing it: `WrittenNotes.SyncKeepsItIff` and
  `WrittenNotes.RecordingTakesItUp` say what becomes of that.
- A preference is replaced by text prefix, so recording key "a" removes the bullet of key "a:b":
  `Preferences.ReplacesIff` gives all such pairs of keys.
- `safe_name` checks for device names before it cuts the name, so a cut can produce one:
  `UploadNames.StoredReservedIff` says exactly when.
- A stored file is listed if and only if the name that was sent, hardened, does not end in ".part":
  `UploadListing.StoredIsListedIff`. A file with that ending is stored and reported as stored, but never shown
  (`UploadListing.PartNamesAreStoredUnseen`).
- The byte limit holds for the name that is asked for, not for the numbered one that is stored when that is taken:
  `UploadListing.StoredNameIsOpenableIff` says exactly when the number does not fit.
- `store_stream` overwrites a user's own file named like its partial file, and leaves the partial file
  behind when the request is cancelled: `UploadStore.NothingIsLostIff`, `UploadStore.UploadIsExact`.
- One fund's line in the health report can say healthy although it has unresolved failures, exactly when its date
  is recent and within the row limit and the other funds alone have enough failures to fill the limit
  (`Pollers.FailingFundCanLookHealthyIff`); the poller's own line cannot (`Pollers.HealthyIff`).
- A day padded with a space ("2026-08- 5") passes the date check of the calendar tool and comes back
  without its padding (`AllDay.PaddedDayIsRewritten`); the last day of the calendar raises instead of being sent:
  `AllDay.EndReadsBackIff`.
- A proposal shows a day count for week dates too, which are then sent as times: "2026-W32-1" to "2026-W32-5" is
  shown as five days (`AllDay.WeekIsShownAsFiveDays`). The count is the length of the range sent if and only if both
  texts are calendar dates and the end is not the last day (`AllDay.CountIsTheRangeSentIff`).

## Model

| member | source | states |
|---|---|---|
| `PendingPlans.KeysSeparateChats` | services/pending_plans.py:77-81 | two conversations share a slot if and only if the user is the same and the chats are the same or both normalise to the fallback |
| `PendingPlans.PlanTable.Post` | services/pending_plans.py:125-131 | the upsert replaces the row of its key unless it is refused |
| `PendingPlans.PlanTable.Delete` | services/pending_plans.py:148-157 | the delete returns the row it removed, and removes it unless it is refused |
| `PendingPlans.PlanStore.MemSave` | services/pending_plans.py:87-89 | the memory slot holds the plan with its expiry; other slots are unchanged |
| `PendingPlans.PlanStore.MemTake` | services/pending_plans.py:92-98 | the slot is emptied; the answer is its plan if it has not expired |
| `PendingPlans.PlanStore.MemClear` | services/pending_plans.py:101-103 | only that slot is emptied |
| `PendingPlans.PlanStore.Save` | services/pending_plans.py:109-134 | memory always holds the plan, the table does unless the request was refused; "db" is reported only when answered |
| `PendingPlans.PlanStore.Take` | services/pending_plans.py:137-168 | memory is emptied on every path; the table decides the answer when it answers, memory otherwise; which source is reported |
| `PendingPlans.PlanStore.Clear` | services/pending_plans.py:171-189 | both tiers are emptied, the table unless the request was refused |
| `PlanRaces.CopiesOnlyMove` | services/pending_plans.py:87-168 | in any interleaving, every copy but a newborn one was somewhere already, unchanged and under the same key |
| `PlanRaces.CopiesNeverFork` | services/pending_plans.py:87-168 | no step of any process duplicates a copy |
| `PlanRaces.StepKeepsInv` | services/pending_plans.py:109-189 | every step keeps the invariant: copies are genuine, at most one per save and tier, releases are in time |
| `PlanRaces.HandedOutPlansWereSaved` | services/pending_plans.py:137-168 | under any failures and interleaving, a plan handed out was saved earlier under the same key, with the same calls, and is inside its TTL |
| `PlanRaces.OncePerTier` | services/pending_plans.py:137-168 | two releases of one save come from different tiers |
| `PlanRaces.AtMostTwice` | services/pending_plans.py:137-168 | each save is released at most twice, whatever fails |
| `PlanFaults.SingleUseIff` | services/pending_plans.py:137-168 | under a pattern of faults, every run of any number of processes releases each save at most once if and only if the pattern cannot bring a row to the table, answer a take and leave a take unanswered, or plans expire as they are made |
| `PlanFaults.SafeRunsReleaseOnce` | services/pending_plans.py:145-168 | without one of the three, all releases of a run come from one tier, so each save is released once |
| `PlanFaults.UnsafeRunReleasesTwice` | services/pending_plans.py:145-168 | with all three there is a run that releases a save twice, however the row arrived |
| `PlanRaces.OneSlotPerKey` | services/pending_plans.py:109-189 | with the table always reachable all processes linearise to one slot per key: each take answers what that slot held at its step; process memory never decides |
| `PlanRaces.ReachableLinear` | services/pending_plans.py:109-189 | the linearisation invariant holds after every schedule |
| `PlanRaces.EndedFirstTakesEffectFirst` | services/pending_plans.py:109-189 | real-time order: an operation that had ended before another began takes effect before it |
| `PlanRaces.SavesTakeEffectOnce` | services/pending_plans.py:109-134 | a save that has ended put exactly its own calls, stamped after it began, into its key's slot, once |
| `PlanRaces.ClearsTakeEffectOnce` | services/pending_plans.py:171-189 | a clear that has ended emptied its key's slot, once |
| `PlanRaces.SaveAlone` | services/pending_plans.py:109-134 | the interleaved steps of a save, run without interruption, do what the method does |
| `PlanRaces.AnsweredTakeAlone` | services/pending_plans.py:146-165 | the same for a take whose delete is answered |
| `PlanRaces.UnansweredTakeAlone` | services/pending_plans.py:166-168 | the same for a take whose delete is not answered |
| `PlanRaces.TwoReleasesHappen` | services/pending_plans.py:145-168 | the bound of two is met by a run of five requests |
| `PlanFreshness.RowsFollowEffects` | services/pending_plans.py:109-189 | over every schedule, with requests that fail or arrive late, the table holds what the requests it carried out, in their order, make of it |
| `PlanFreshness.AnsweredTakeIsNewest` | services/pending_plans.py:145-165 | over every schedule a take that the table answered comes back with the row stored last under its key, nothing of that key carried out between |
| `PlanFreshness.AnsweredTakeIsCurrentIff` | services/pending_plans.py:145-165 | over every schedule such a take pops a plan neither replaced nor dropped if and only if the request of the newest save or clear of its key is the last that the table has carried out under it |
| `PlanFreshness.MemoryIsOwnLast` | services/pending_plans.py:87-103 | over every schedule, what a process holds in memory under a key is of the last save of that key it ran itself, with no clear of its own since |
| `PlanFreshness.FallBackIsCurrentIff` | services/pending_plans.py:166-168 | over every schedule a take that falls back to memory pops a plan neither replaced nor dropped if and only if the newest save or clear of its key, by any process, was this process's own |
| `PlanFreshness.ReleaseIsCurrentIff` | services/pending_plans.py:137-168 | every plan ever released was current when it was popped if and only if the tier it came from was up to date in that sense |
| `PlanFreshness.OneAtATimeIsCurrent` | services/pending_plans.py:109-189 | with the table always reachable, saves and clears of a key that do not overlap, and the newest ended, what the table holds is current |
| `StalePlans.ReplacedPlanIsExecuted` | services/pending_plans.py:109-168 | runs, with a take that is answered and with one that is not, in which a go-ahead executes a plan that a newer one had replaced |
| `StalePlans.DroppedPlanIsExecuted` | orchestrator.py:1976-1980 | runs, with either kind of take, in which a go-ahead executes a plan that a clear had dropped |
| `Router.NameComesBack` | orchestrator.py:1894 | the name read back from a signature is the name that built it if and only if it has no colon |
| `Router.DispatchableNamesAreSafe` | orchestrator.py:2150-2155 | for dispatchable tools a signature identifies the call, and gives its name back |
| `Router.Fresh` | orchestrator.py:1892-1912 | the repeat guard keeps exactly the calls that have not run and whose tool is under its limit |
| `Router.Dispatchable` | orchestrator.py:2206-2215 | exactly the calls with a known tool are kept, and all of a batch of known ones as it is |
| `Router.Asked` | orchestrator.py:1661-1668 | attempts stop at the first that is not a retryable failure, or at the bound |
| `RouterCode.Gateway.ComposeReply` | orchestrator.py:2082-2147 | local_llm reports what the attempt that succeeded saw of its usage, cloud before local, and nothing for a canned reply or a failure |
| `RouterCode.Gateway.AskWithRetries` | orchestrator.py:1658-1672 | the retry loop makes exactly those attempts and adds up the usage each returned, which is none for an attempt without a response |
| `RouterCode.Gateway.TakePendingPlan` | orchestrator.py:1768-1777 | both tiers' slots are emptied, the table's unless the request was refused; an empty plan counts as none |
| `RouterCode.Gateway.RunGate` | orchestrator.py:1947-1980 | the gate over both tiers decides as the one-slot gate does over the tier that answers, and leaves in each tier what that gate leaves; what it decides is `WriteGate.NativeVisitSends` |
| `RouterCode.Gateway.FinishRouting` | orchestrator.py:1805-2004 | for every reply of the table, the guards compute the update and gate event that `Router.FinishRouting` defines over the tier that answers, and leave its store contents in both tiers |
| `RouterCode.Gateway.Supervisor` | orchestrator.py:1554-1676 | the same for one whole visit, including how many routing calls it makes |
| `WriteGate.ConfirmationIsNeededIff` | orchestrator.py:1785-1790 | a batch has to be shown if and only if some call in it deletes an event, or at least the threshold of its positions carry one of the four names that write |
| `WriteGate.ConfirmationIsGivenIff` | orchestrator.py:1793-1802 | a turn is a go-ahead if and only if its text is one and the assistant has spoken before |
| `WriteGate.NothingIsWrittenUnasked` | orchestrator.py:1947-1980 | over whole conversations, with both spelled out: such a batch runs only in a go-ahead turn, as the first thing its tools do, straight after a take that found nothing or released exactly this batch |
| `WriteGate.KeptIs` | orchestrator.py:1892-1912 | of a batch the known and fresh calls are kept, each as often as it was asked for, in that order |
| `WriteGate.RepeatGuardIs` | orchestrator.py:1892-1900 | in every run a known call is fresh if and only if this very call has not run in the turn and its tool has run fewer times than the deployment allows |
| `WriteGate.NativeVisitSends` | orchestrator.py:1880-1997 | what a native batch comes to, all cases: in an ordinary turn it goes to the tools as it is, or is stored and shown if it has to be; a go-ahead runs the live plan on record, else the batch, else is told that there is no plan; and what the store then holds |
| `WriteGate.StructuredVisitObeys` | orchestrator.py:1658-1676 | the decision of the first attempt that follows only transient failures is what happens, but for a go-ahead, which runs the live plan or is told that there is none |
| `WriteGate.UndecidedVisitDegrades` | orchestrator.py:1673-1674 | without a decision the turn degrades and the store is left alone |
| `WriteGate.VisitReports` | orchestrator.py:1639-1674 | a structured visit reports the sum of what the attempts made reported, an attempt without a response reporting nothing; a native one never the total |
| `WriteGate.VisitIsRecorded` | orchestrator.py:1658-1672 | a visit makes one routing call natively, else one per attempt and one more for a native one that failed, and none once it may not ask |
| `WriteGate.AnsweredVisitFinishes` | orchestrator.py:1603-1614 | after the reply the run ends without asking a model, and nothing that was asked for is left standing |
| `WriteGate.PointerIsTheReplyIff` | orchestrator.py:1825-1838 | the fixed pointer is the reply if and only if the turn's first message is about a saved document with nothing attached, the router names no known tool, and no approved plan is carried out |
| `WriteGate.NativeBatchIsCarriedOut` | orchestrator.py:2202-2295 | a native batch that need not be shown is run: the next tool step is exactly its known and fresh calls, and exactly their signatures are added to the record, in order |
| `WriteGate.RequestIsCarriedOut` | orchestrator.py:2202-2295 | the one call of a structured decision is run: the next tool step is that call alone, and its signature alone is added to the record; a call without a known name is dropped |
| `WriteGate.ApprovedPlanIsCarriedOut` | orchestrator.py:1947-1954 | a go-ahead runs the live plan on record, call for call, whatever either router says |
| `WriteGate.LogSaysWhatRan` | orchestrator.py:2264-2295 | what the log of a conversation says was executed is what the tool step ran |
| `WriteGate.LateYesFindsNothing` | orchestrator.py:1955-1967 | after any conversations, a go-ahead that comes a TTL later finds no plan |
| `Runs.EveryRunEnds` | orchestrator.py:2640-2658 | for every oracle a run ends within MAX_STEPS + 3 node visits, below the recursion limit, with at most one reply, one of three statuses, and no routing call at or past the bound |
| `Runs.ExactlyOneReply` | orchestrator.py:1603-1614 | with a client and native decisions that succeed, the user gets exactly one reply |
| `Runs.NoCallRunsInTwoSteps` | orchestrator.py:1892-1912 | a batch never repeats a call the run has made before |
| `Runs.ToolRunsBoundedly` | orchestrator.py:1892-1912 | no batch runs a tool that has already run in the allowed number of tool steps |
| `Replies.StoredPlanIsShown` | orchestrator.py:1968-1975 | the composer is handed a plan to show exactly when this visit stored one, and it is the same calls in the same order |
| `Replies.RepliesFit` | orchestrator.py:1935-1967 | in every run the apology for a missing plan comes only in a go-ahead turn that has run no tool, the fixed pointer only as the first and only answer, and the notice of the bound exactly when the bound was hit |
| `Billing.UsageIsConserved` | orchestrator.py:1639-1674 | every run's bill plus what the code forgets is what all its model calls cost; so the bill is complete if and only if every step billed its calls in full |
| `Billing.ForgetsNothingIff` | orchestrator.py:881-1011 | a step forgets nothing if and only if each call without a response cost nothing, each response reported all it cost, a native decision had no total, and a visit that raises had nothing to lose |
| `Billing.TimedOutAttemptIsNotBilled` | orchestrator.py:919-930 | an input: a first attempt that timed out at 100 tokens and a second that decided at 10 are billed as 10 |
| `Conversations.StepKeepsInv` | orchestrator.py:1947-1980 | every step of every interleaved turn keeps the store equal to what the log implies and every transcript well ordered |
| `Conversations.ReachableInv` | orchestrator.py:1947-1980 | so it holds over all conversations |
| `Conversations.ReleaseIsTheLastProposal` | orchestrator.py:1947-1954 | a released plan is, call for call, the last one proposed for that user and chat, inside its TTL, and nothing touched the slot in between |
| `Conversations.GatedBatchesAreApproved` | orchestrator.py:1947-1980 | a batch that needs confirmation runs only in a bare go-ahead after an assistant turn, before any other tool of the turn, and is the plan on record if there was one; which batches these are is `WriteGate.ConfirmationIsNeededIff` |
| `Conversations.ApprovedBatchWasProposed` | orchestrator.py:1947-1980 | end to end: a batch that needs confirmation, run where a plan was on record, is exactly the last sequence of calls proposed in that user's chat, inside its TTL |
| `Conversations.UnshownBatchRunsIff` | orchestrator.py:1947-1967 | a batch that needs confirmation runs without being the approved plan if and only if the turn is a go-ahead, no tool has run in it, and no live plan is on record |
| `Conversations.NoPlanMeansNone` | orchestrator.py:1955-1967 | when a take finds nothing, every proposal left untouched has expired |
| `Conversations.ProposalsSurviveTheirTurn` | orchestrator.py:1968-1980 | after a turn stores a proposal it touches no slot and runs no tool; a turn that is no go-ahead never takes one, and what it does first, as soon as it is routed, is to replace or clear what was on record |
| `Proposals.UnrelatedTurnEndsProposal` | orchestrator.py:1976-1980 | if a turn of the same chat that is no go-ahead is routed between a proposal and a release, what is released is another, later proposal |
| `Proposals.ProposalStandsIff` | orchestrator.py:1947-1980 | a proposal is what the slot holds if and only if nothing has touched the slot since |
| `Proposals.ProposalEndsOnlySo` | orchestrator.py:1947-1980 | a proposal ends only by its release in time, a go-ahead that finds it expired, a newer proposal, or a turn that clears it and is no go-ahead, or is an overlapping one that had asked before the proposal was made |
| `Proposals.UnshownDeleteRuns` | orchestrator.py:1947-1967 | a run in which a go-ahead with no plan on record executes a delete nobody was shown |
| `ApprovedBatches.ApprovedBatchWasSaved` | orchestrator.py:1947-1967 | over any interleaving, fault and restart of the store, the batch a go-ahead turn executes as approved is, call for call, what one save of the same user and chat stored, inside its TTL; without one the turn runs what the router asked for, or apologises |
| `ApprovedBatches.AtMostTwoExecutions` | services/pending_plans.py:137-168 | and a proposal is executed in at most two turns, whatever fails |
| `ParallelBatch.SchedulesComplete` | orchestrator.py:2251-2257 | no schedule of the pool stalls, and none takes more than two steps a call |
| `ParallelBatch.PoolIsBounded` | orchestrator.py:2254-2257 | the pool never runs more calls at once than the deployment allows, and can take up the next exactly as long as it runs fewer and one is left |
| `ParallelBatch.EachCallRunsOnce` | orchestrator.py:2251-2257 | when a schedule completes every call has run exactly once, in order of dispatch, under the run's user |
| `ParallelBatch.ResultsAreDelivered` | orchestrator.py:2254-2257 | what the pool holds for a call is what that call itself delivered |
| `ParallelBatch.Gather` | orchestrator.py:2264-2290 | the loop puts messages, events and signatures in call order |
| `ParallelBatch.GatheredIsWhatCallsDelivered` | orchestrator.py:2251-2290 | after any completed schedule, the message and event at each call's place carry the text that very call delivered |
| `ParallelBatch.CompletionOrderDoesNotShow` | orchestrator.py:2251-2290 | two completed schedules whose calls return the same texts give the same messages, events and signatures |
| `FairMerge.Merge` | knowledge_chat.py:342-346 | the loops read the passages in the order `Order` defines |
| `FairMerge.MergeIsAPermutation` | knowledge_chat.py:344-345 | that order names every passage of every list exactly once and keeps each list's order |
| `FairMerge.EveryPrefixIsFair` | knowledge_chat.py:338-346 | in every prefix, a document that is not exhausted is at most one passage behind any other |
| `Passages.AddKeepsBook` | knowledge_chat.py:296-306 | adding keeps numbers 1..n in insertion order, keys and passages one to one, and the character count the sum of the texts within the budget |
| `Passages.AddedIs` | knowledge_chat.py:296-306 | an addition is put in the book, whole and last, if and only if its key is new and it fits |
| `Passages.BookHoldsWhatCame` | knowledge_chat.py:296-306 | the book holds additions whole, each at most once, in the order they came |
| `Passages.NothingFittingIsLeftOut` | knowledge_chat.py:296-306 | and every addition that came has a passage under its key or would not fit |
| `Passages.EveryInterleavingKeepsBook` | knowledge_chat.py:651-653 | so does every order in which concurrent tools add, and no number is ever changed |
| `Passages.TurnContext.Add` | knowledge_chat.py:296-306 | the method adds as defined and returns the passage of that key, or nothing when the budget is full |
| `Passages.TurnContext.Show` | knowledge_chat.py:378-394 | the loop shows passages until one does not fit |
| `Passages.ShownIsAPrefix` | knowledge_chat.py:378-391 | what is shown is a prefix of what was selected, all of it unless the budget broke it off |
| `Passages.OnlyStrongAcrossTheLibrary` | knowledge_chat.py:351-366 | without named documents every passage over the relevance floor is selected, no other, and in the order found |
| `Passages.ScopedSelectionIs` | knowledge_chat.py:351-366 | inside named documents everything found is selected, unless all of it is weak and there are more than six; then it is the first six |
| `Passages.SeveralDocumentsShareTheBudget` | knowledge_chat.py:338-391 | the fairness bound survives the weak cut and the budget: it holds for what the model is shown |
| `Passages.SourcesAreCitedPassages` | knowledge_chat.py:504-527 | every source is a passage of this turn that the answer cites, in increasing order without repeats, and none is missing unless every citing sentence is about the library |
| `Passages.SourceIsShownIff` | knowledge_chat.py:504-527 | a passage is a source if and only if the answer cites its number and some citing sentence is not just about the library |
| `ChatTurn.ReadStream` | knowledge_chat.py:608-622 | the stream is split into visible texts and calls |
| `ChatTurn.SettleRound` | knowledge_chat.py:624-663 | what follows a stream: stop, discard, stream on or call tools, as `Settle` defines; what that amounts to is `ChatRounds.TurnIs` |
| `ChatTurn.PlayRounds` | knowledge_chat.py:585-663 | the round loop plays what `Played` defines |
| `ChatTurn.Run` | knowledge_chat.py:565-674 | the events of a whole turn |
| `ChatTurn.TurnsAreGrounded` | knowledge_chat.py:585-663 | at most the first draft is discarded and it is shown to nobody; text shown before a tool call is grounded or forced; the tool-less round comes only after a tool call; rounds are bounded |
| `ChatTurn.TurnsAreWellTraced` | knowledge_chat.py:565-674 | every trace is tokens and tool calls, then sources and "completed", or "error", with the status last |
| `ChatTurn.SourcesMatchWhatWasShown` | knowledge_chat.py:665-674 | the streamed tokens add up to the text whose citations are the sources, each a passage of this turn that it cites; which passages there are is `ChatRounds.TurnIs` |
| `ChatRounds.StreamIs` | knowledge_chat.py:608-622 | a stream shows the texts of the parts that are neither calls nor thoughts nor empty and asks for the calls, each in the order streamed |
| `ChatTurn.StripIs` | knowledge_chat.py:665 | blanks are cut off both ends of the answer, and all of them |
| `ChatRounds.TurnIs` | knowledge_chat.py:585-674 | a whole turn from outside: the rounds up to the first that neither retrieves nor is thrown away, what each shows and calls, and the book it leaves: what the tools of exactly those rounds retrieved that asked for calls, did not fail and had tools, in round order |
| `ChatRounds.RetrievingLeadsOn` | knowledge_chat.py:589-663 | a round is followed by another if and only if it retrieves, or is the first and is thrown away |
| `ChatRounds.AnswerCitesWhatWasRetrieved` | knowledge_chat.py:648-674 | where the first round retrieves and the second answers, the trace is the calls, the answer, and as sources what the answer cites of what the first round retrieved |
| `ChatRounds.RetrievedPassageIsTheSource` | knowledge_chat.py:648-674 | in particular one fitting passage that the answer cites is the source |
| `ChatHistory.HistoryContents` | knowledge_chat.py:466-486 | roles alternate, first and last are the user's, and no text is lost but blank turns and what precedes the first user turn |
| `ChatHistory.RecentIs` | knowledge_chat.py:471 | the last turns, as many as the deployment says; all of them for zero, and for a negative number all but so many of the first |
| `ChatHistory.KeptTurnsAre` | knowledge_chat.py:471-481 | of these the ones with text are kept, in order, from the first that is the user's |
| `Vault.EveryKeyIsSeenOnce` | services/storage_sync.py:171 | the listing's order has every key once, however it was paged or repeated |
| `Vault.VaultSync.ListVaultObjects` | services/storage_sync.py:136-156 | the paged listing as one dictionary in first-seen order, as `Listed` and `FirstSeen` define; what they hold is `VaultListing.ListedIs` and `VaultListing.OrderIs` |
| `Vault.VaultSync.ResetDest` | services/storage_sync.py:86-106 | the folder is emptied but for the profile |
| `Vault.VaultSync.SyncFromS3` | services/storage_sync.py:159-194 | skip, or reset, download and remember, as `Synced` defines, also when a download fails part-way |
| `Vault.VaultSync.SyncPages` | services/storage_sync.py:159-194 | the whole sync from the pages of the listing |
| `VaultListing.ListedIs` | services/storage_sync.py:136-156 | the dictionary has exactly the non-empty keys listed, each with the ETag that came with it last |
| `VaultListing.OrderIs` | services/storage_sync.py:171 | the order is that in which the keys are first listed |
| `VaultListing.PagesFollow` | services/storage_sync.py:145-156 | every page is listed in its place |
| `VaultListing.ListingIsTheBuckets` | services/storage_sync.py:171 | pages that list every object of a bucket once, with its ETag, however they are cut, give the bucket's listing and an order of its keys |
| `VaultListing.SyncOfPagesIsTheStep` | services/storage_sync.py:159-194 | so the sync of such pages is the step that the theorems about runs speak of |
| `VaultListing.SkipsIff` | services/storage_sync.py:174-180 | a sync skips if and only if the listing is not empty, has a non-empty ETag for everything and is the one remembered, and the folder exists |
| `VaultListing.NotesAre` | services/storage_sync.py:184-188 | the notes are the objects with a name after the prefix that ends in ".md" |
| `VaultListing.EditIsNoticed` | services/storage_sync.py:171-180 | a note listed last with another ETag than the one remembered is not skipped |
| `Vault.FullSyncMirrors` | services/storage_sync.py:182-194 | a reset and download that complete with what was listed leave exactly the bucket's notes, apart from the profile |
| `Vault.SyncMirrorsTheBucket` | services/storage_sync.py:171-180 | with no note written since the last good reset, the skip leaves the same files as a full resync would |
| `Vault.EverySyncMirrors` | services/storage_sync.py:159-194 | over any run of edits of the bucket, profile writes and good syncs, every sync leaves the bucket's notes |
| `VaultCache.SyncMirrorsIff` | services/storage_sync.py:159-194 | over any run, with syncs that list nothing, lack ETags, fail part-way or download other bodies than those listed, and any files written into the folder, a sync leaves the bucket's notes if and only if what the last reset fetched, with what was written since, are those same notes |
| `VaultCache.RunsHoldLastReset` | services/storage_sync.py:159-194 | over any run the folder holds exactly what the last reset fetched and what was written since, apart from the profile |
| `VaultCache.RememberedIsRightIff` | services/storage_sync.py:171-194 | after a sync that is remembered, the next sync of its listing skips and succeeds, and the folder is the bucket's if and only if every note was served at the body it was listed with |
| `VaultCache.EditUnderSyncIsKept` | services/storage_sync.py:171-194 | an input: a note edited between listing and download, and the edit taken back, keeps the edited body |
| `VaultCache.SkipAfterInterludeIff` | services/storage_sync.py:171-194 | after a reset that was not remembered, the next sync of the remembered listing skips and succeeds, and is right if and only if that reset fetched the same notes with the same bodies |
| `VaultCache.SkipAfterUnetaggedIff` | services/storage_sync.py:171-194 | where that reset completed with what it listed: if and only if the other bucket had the same notes |
| `VaultCache.FailedDownloadIsKept` | services/storage_sync.py:183-194 | an input for a failed download: the note is missing after a sync that reports success |
| `Vault.DeletedAndRestoredIsLost` | services/storage_sync.py:171-193 | an input for an empty listing: a note deleted and restored around it is missing after a successful sync |
| `WrittenNotes.WrittenNoteStaysIff` | tools/user_vault.py:150-156 | a file in the folder, the profile apart, is still there after a sync if and only if the sync skips or fetches that very body |
| `WrittenNotes.RecordingDropsNotes` | orchestrator.py:2565-2590 | a note that a sync right after its writing would keep is dropped by the next sync once a preference has been recorded |
| `WrittenNotes.RecordingTakesItUp` | orchestrator.py:2565-2590 | a profile the tool has written is what the next recording updates and stores |
| `WrittenNotes.SyncKeepsItIff` | services/storage_sync.py:95-105 | a sync before that keeps it if and only if it skips or does not get as far as the stored profile |
| `Vault.SectionKeepsProfile` | orchestrator.py:2565-2590 | each step keeps local and stored profile equal, and applies its update, if and only if it is not the tool writing another profile |
| `Vault.NoUpdateIsLost` | orchestrator.py:2565-2601 | with uploads that succeed and no profile written by the tool, over every interleaving of locked sections, syncs that fail or see other notes change included, the profile is every update so far, in order |
| `Vault.FirstSyncAgrees` | orchestrator.py:2933-2941 | a first sync into an empty process makes local and stored profile agree |
| `Vault.ProfileSurvivesResetIff` | services/storage_sync.py:95-105 | without an upload a profile survives a completed reset if and only if the bucket has no other one |
| `Preferences.RecordedIsReadBackIff` | orchestrator.py:2494-2517 | whatever the file held, its other bullets and the new one are read back if and only if the new one has no line break |
| `Preferences.FileIs` | orchestrator.py:2502-2516 | the file is the heading, an empty line, and the bullets, each on its own line, the new one last |
| `Preferences.LineIs` | orchestrator.py:2502-2506 | the text of a bullet, and the text by which it is found |
| `Preferences.KeptBulletsAre` | orchestrator.py:2511-2512 | the other bullets are the lines that begin as bullets and do not begin with the new one's type and key, in place |
| `Preferences.SplitLinesIs` | orchestrator.py:2511 | a text is cut at every line end and nowhere else |
| `Preferences.BreaksAre` | orchestrator.py:2511 | the ten characters that end a line |
| `Preferences.ReplacesIff` | orchestrator.py:2508-2514 | recording under one key can replace a bullet of another if and only if the types are equal and the keys clash |
| `Preferences.PlainKeysClashIff` | orchestrator.py:2508-2514 | keys without a colon clash only with themselves |
| `Preferences.ColonKeyIsReplaced` | orchestrator.py:2508-2514 | key "a" always replaces the bullet of key "a:b" |
| `Preferences.RecordingsRefineAMap` | orchestrator.py:2494-2517 | while no two recorded keys clash, the file holds the last preference of every slot, one bullet each, and nothing else |
| `Preferences.PlainKeysRefineAMap` | orchestrator.py:2494-2517 | in particular for keys without a colon |
| `ProfileRuns.NothingRememberedIsLost` | orchestrator.py:2565-2601 | end to end: over any run of locked syncs, recordings, edits and notes written by the tool, the profile spared, the local and stored profile agree and hold the last preference of every slot |
| `Gregorian.PrevUndoesNext` | tools/google_calendar.py:276 | a day less undoes a day more |
| `Gregorian.NextUndoesPrev` | tools/google_calendar.py:301-303 | and the other way round |
| `Gregorian.NextDayAddsOne` | tools/google_calendar.py:276 | the next calendar day is the next ordinal, across months, years and leap days |
| `Gregorian.MonthsAre` | tools/google_calendar.py:276 | the lengths of the months |
| `Gregorian.OrdinalsOrder` | orchestrator.py:1214 | ordinals order dates as the calendar does, and identify them |
| `Gregorian.PlusReaches` | orchestrator.py:1214 | counting days one at a time reaches a date after as many as the ordinals differ by |
| `Gregorian.IsoReadsBack` | tools/google_calendar.py:276-277 | the text of a date is read back as that date by both parsers |
| `Gregorian.DateIsReadIff` | orchestrator.py:1214 | a text of the right shape is read as a date if and only if it is that date's own text |
| `Gregorian.StrptimeReadsBackIff` | tools/google_calendar.py:276-277 | text of the right shape is rewritten unchanged if and only if its day is not padded with a space |
| `AllDay.EndReadsBackIff` | tools/google_calendar.py:256-308 | an end is listed as it was written if and only if it is not blank, not the last day, and not space-padded |
| `AllDay.PaddedDayIsRewritten` | tools/google_calendar.py:276-303 | an input: the padded "2026-08- 5" is sent and comes back as another text |
| `AllDay.CreatedRangeReadsBack` | tools/google_calendar.py:364-380 | every all-day range is listed with the inclusive dates it was created with |
| `AllDay.WrittenIsSettled` | tools/google_calendar.py:256-284 | whatever is written is something the calendar can hold, malformed dates included |
| `AllDay.CycleIsIdentity` | tools/google_calendar.py:383-404 | writing back what was listed changes nothing |
| `AllDay.CyclesAreAFixpoint` | tools/google_calendar.py:287-308 | nor does any number of such cycles |
| `AllDay.UpdateReadsBack` | tools/google_calendar.py:383-404 | after an update the given time is listed as given and the other as it was |
| `WeekDates.FirstWeekHoldsJanuary4` | orchestrator.py:1214 | the first week of a year begins on a Monday and holds 4 January |
| `WeekDates.WeeksMeet` | orchestrator.py:1214 | the 52 or 53 weeks of a year end where those of the next begin |
| `WeekDates.WeekDatesOrder` | orchestrator.py:1214 | a week date is known by its ordinal, and ordinals order week dates |
| `WeekDates.WeekIsReadIff` | orchestrator.py:1214 | a text is read as a day if and only if it is the text of a week date of a year that has this week, and falls on that day |
| `AllDay.WeekDatesAreSentAsTimes` | orchestrator.py:1207-1220 | any two week dates in order are shown with the count of their days, and sent as two times |
| `AllDay.WeekIsShownAsFiveDays` | orchestrator.py:1207-1220 | an input: "2026-W32-1" to "2026-W32-5" |
| `AllDay.CountIsTheRangeSentIff` | orchestrator.py:1207-1220 | the day count shown for approval is the length of the half-open range that is sent if and only if both texts are calendar dates and the end is not the last day |
| `AllDay.DatesSendTheirRange` | tools/google_calendar.py:364-380 | for calendar dates that range starts on the shown first day; only an end on the last day raises |
| `AllDay.WarnsIff` | orchestrator.py:1214-1220 | the warning appears if and only if the end date comes before the start date |
| `AllDay.BothEndsAreShown` | orchestrator.py:1205-1222 | for any texts, a question mark is shown exactly when there is no start, the start alone exactly when there is no other end, and else both as given, with a count or a warning exactly when both are days |
| `AllDay.StripIs` | tools/google_calendar.py:272 | white space is cut off both ends of a time, and all of it |
| `AllDay.SpacesAre` | tools/google_calendar.py:272 | the characters that count as white space |
| `Utf8.CutKeepsWholeChars` | services/uploads.py:149-153 | cutting a text's bytes anywhere and decoding the rest keeps exactly the characters that fit whole |
| `Utf8.WholeCharsIsLongest` | services/uploads.py:149-153 | and that is the longest beginning of the text that fits |
| `Utf8.EncodedReadsBack` | services/uploads.py:149-153 | what is encoded decodes to itself |
| `UploadNames.Harden` | services/uploads.py:119-159 | the stages yield `SafeName`, the result is openable, and `rewritten` is false if and only if the name was fine |
| `UploadNames.SafeNameIsOpenable` | services/uploads.py:119-159 | whatever was sent, the name is not empty, fits the byte limit, has no separator or illegal character, no leading dot, no trailing dot or space, and is not the sentinel |
| `UploadNames.BaseIs` | services/uploads.py:131 | the base name is what follows the last separator of either kind |
| `UploadNames.DeviceIsRenamed` | services/uploads.py:142-145 | a device name before the first dot gets "_file" after it, and nothing else is added |
| `UploadNames.IllegalAre` | services/uploads.py:81 | the characters that are replaced |
| `UploadNames.ReservedAre` | services/uploads.py:74-78 | a stem is a device name if and only if it spells one of six, or one of two with a digit, in any case of its letters |
| `UploadNames.LongNameIsCut` | services/uploads.py:149-154 | a name over 200 bytes keeps 100 of them from its first dot on and as much of what is before as fits, in whole characters, without trailing dots and spaces |
| `UploadNames.UnchangedIffFine` | services/uploads.py:159 | a name is stored unchanged if and only if it is openable and its stem is not a device name |
| `UploadNames.StoredReservedIff` | services/uploads.py:142-154 | the stored stem is a device name if and only if the cut left a device name followed by spaces and dots; never when nothing was cut |
| `UploadNames.IdempotentIff` | services/uploads.py:119-159 | hardening again changes nothing if and only if that did not happen |
| `UploadNames.SpacesLeaveADevice` | services/uploads.py:142-154 | a family of names for which it does |
| `UploadStore.UniqueTarget` | services/uploads.py:190-203 | the search finds the first free name of the series or none |
| `UploadStore.FirstFreeIsFirst` | services/uploads.py:190-203 | that name is free and all before it are taken; none only if all are |
| `UploadStore.RefusalMeansFull` | services/uploads.py:203 | the refusal happens only in a directory with 999 files |
| `UploadOutcomes.CandidateIs` | services/uploads.py:190-203 | the names tried: the name itself, then its stem, the number in brackets and its suffix |
| `UploadStore.UploadDir.StoreStream` | services/uploads.py:237-297 | the directory and the answer after an upload, on every path |
| `UploadStore.UploadDir.Receive` | services/uploads.py:248-279 | from the partial file to the stored one, with each refusal |
| `UploadStore.UploadDir.WriteChunks` | services/uploads.py:252-265 | the loop writes the body until it ends, breaks, or crosses the cap |
| `UploadStore.WritesAllIff` | services/uploads.py:255-265 | the whole body is written if and only if it ends, nothing fails and it fits the cap |
| `UploadStore.UploadIsExact` | services/uploads.py:237-297 | no other file is touched; a stored upload is exactly the body under a free name; a refused one adds nothing; only a cancelled one leaves its partial file |
| `UploadStore.StoredIff` | services/uploads.py:237-297 | exactly when an upload is stored |
| `UploadOutcomes.AnswerIs` | services/uploads.py:237-297 | each answer if and only if its condition holds: 503, 507, 409, 413, 500, 400, and none for a cancelled request; where writing stops is told chunk by chunk |
| `UploadOutcomes.StoredIsReported` | services/uploads.py:279-297 | a stored upload is reported under the name it got, with its size, and as rewritten exactly when hardening changed the name or that name was taken |
| `UploadListing.PartNamesStayInTheSeries` | services/uploads.py:190-203 | a numbered name ends like a partial file's if and only if the name asked for does |
| `UploadListing.SeriesIsOpenableIff` | services/uploads.py:190-203 | a numbered name keeps every character rule of a hardened one, and the byte limit if and only if its number still fits |
| `UploadListing.StoredNameIsOpenableIff` | services/uploads.py:190-297 | so the name finally stored is openable if and only if it has no number or the number fits |
| `UploadListing.ListedAre` | services/uploads.py:314-318 | everything in the folder is listed but the sentinel and what ends like a partial file |
| `UploadListing.StoredIsListedIff` | services/uploads.py:307-329 | a stored upload is listed if and only if the file name sent, hardened, does not end like a partial file's; nothing else in the listing changes |
| `UploadListing.PartNamesAreStoredUnseen` | services/uploads.py:307-318 | every fine, free name that ends like a partial file's is stored under itself and then not listed |
| `UploadListing.ShortPartNameIsFine` | services/uploads.py:119-159 | such a name |
| `UploadStore.NothingIsLostIff` | services/uploads.py:237-279 | on any path nothing the user had is lost if and only if the upload does not get as far as a partial file, no file had its name, or the request is cancelled just when the bytes written are that file's own |
| `Pollers.ConsecutiveFailures` | services/fund_pollers.py:129-144 | the streak is the failures since the last attempt that proved the pipeline works |
| `Pollers.FailuresAreCounted` | services/fund_pollers.py:129-144 | what it counts are the attempts with a failure status that were not skipped |
| `Pollers.CountByFund` | services/fund_pollers.py:214-228 | the tally counts each fund's rows |
| `Pollers.LatestAsOf` | services/fund_pollers.py:200-204 | the first readable date of each fund |
| `Pollers.PollerReport` | services/fund_pollers.py:254-285 | the report is the roll-up of one entry per fund |
| `Pollers.ReportedDateIsLatest` | services/fund_pollers.py:191-204 | under any limit a reported date is the fund's true latest, or absent because the limit cut all its dated rows |
| `Pollers.CountsAreSound` | services/fund_pollers.py:206-228 | a fund's counts of failures and reviews are never too high, and right when nothing was cut |
| `Pollers.ReportAgrees` | services/fund_pollers.py:274-285 | the report is healthy exactly when all its funds are, stale exactly when one is, never both, and its streak is the worst of the funds' |
| `Pollers.HealthyIff` | services/fund_pollers.py:255-285 | a poller is healthy if and only if it has funds, no failure at all is unresolved, and every fund's latest date is recent and within the limit |
| `Pollers.FailingFundCanLookHealthyIff` | services/fund_pollers.py:206-271 | a failing fund's own line can say healthy if and only if its date is recent and within the limit and the other funds alone have enough unresolved failures to fill the row limit |
| `Pollers.FailingFundIsCountedIff` | services/fund_pollers.py:206-216 | every answer counts a failing fund if and only if fewer failures of other funds exist than rows are returned |
| `Pollers.CutFundLooksHealthy` | services/fund_pollers.py:206-271 | an input for which one fund's line is wrong while the poller's is not |
| `Pollers.TotalIsTrueUpToTheLimit` | services/fund_pollers.py:279 | the total counts each returned failure once: the true number, or the limit |
| `Pollers.TotalsCountMatchedRows` | services/fund_pollers.py:279-280 | both totals count each returned row of a matched fund once, and no other |
| `Pollers.FundsAreCounted` | services/fund_pollers.py:276-278 | the numbers of healthy and of stale funds |
| `Pollers.StreakIsSound` | services/fund_pollers.py:240-248 | a streak is never too high, and right when its end is within the limit |
| `Pollers.PlatformHealthyMeansAllFresh` | services/fund_pollers.py:304-331 | the platform is healthy if and only if neither degraded nor unknown, and then every fund of every poller is fresh and no failure is unresolved |

## Left out

- The single call of the structured router (`tool_request`): it is run without the gate and without the
  repeat guard, as in the code; no claim is made that it is confirmed.
- Conversations.GatedBatchesAreApproved: holds over one slot per key, which `PlanRaces.OneSlotPerKey` justifies
  for a reachable table; over a failing one `ApprovedBatches` says what a go-ahead executes, and `PlanFreshness`
  exactly when that was current.
- Clocks of different machines: all processes read one clock, which never runs backwards.
- A row whose expiry cannot be read: the store's class has it, the interleavings start from an empty table
  and never make one.
- Which texts count as a go-ahead, as citations, as sentences about the library or as saved-document
  references: arbitrary predicates.
- Prompts, message texts, labels and logging; the conversation that is sent to the chat model between rounds.
- How a model's arguments are turned into the text that identifies a call; two calls have equal arguments
  when the texts are equal.
- What composing produces: each attempt is an input with its success, the usage it saw and what it cost beyond that.
- Tools themselves: what a dispatched call does, and how it turns its failures into text.
- ParallelBatch.SchedulesComplete: asks for at least one worker; with MAX_PARALLEL_TOOL_CALLS below one the
  pool itself raises when a batch has several calls.
- Looking up a document for `read_document`, its heading lines, and summaries in search results: they add
  text that is not a passage and share the passage loop.
- Vault.EverySyncMirrors: asks that every sync lists something with ETags and completes with what it listed, and that
  no note is written into the folder; what happens otherwise is in `VaultCache` and `WrittenNotes`.
- Vault.NoUpdateIsLost: asks that the tool does not write the profile; what happens otherwise is in `WrittenNotes`.
- A file the tool writes while a sync or a recording is under way: it is taken to come before or after. The paths it
  refuses are not modelled.
- Several processes that serve one user: each has a lock and a folder of its own, and one is modelled.
- More than one user of the vault: each has a separate folder, listing and lock, so one is modelled.
- The sandbox user's mock folder, and keys that are a file in one object and a directory in another.
- The preference extractor: which preference it proposes, its confidence, and the second upload attempt; an
  upload succeeds or it does not.
- The confidence in a bullet is the text it was formatted to; the types are the five that are recorded.
- Digits outside ASCII, which `strptime` also accepts.
- The calendar's own changes to an event: it is taken to hold the times it was sent.
- The time zone lookup, listing windows and deletion of events.
- Surrogates in a file name: a Dafny character is a Unicode scalar value, which is what the encoder keeps.
- Free disk space, the size budget and the sentinel are conditions of an upload; file modes, case folding of
  the mounted drive, virus scanning after the rename, and a failing rename or unlink are not modelled.
- A request cancelled while the rename or an unlink is awaited (`services/uploads.py:266-279`): a cancellation is
  modelled inside the body only.
- Two uploads at once; the order, sizes and times in the listing of uploads; deleting one.
- The last successful run and the age in days in a fund's entry; the order of the entries, which is by ticker.
- Tickers that match no fund: they are missing from the report, as in the code.
