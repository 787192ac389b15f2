# A model of the durable loop and of what it protects

This project models the agentic loop that carries a Conversation from Turn to Turn, the booking
Operation it protects from running twice, and the pure cores around it, and proves what their
comments and documentation promise.

**The loop.** `Loop.dfy` is a transition system. Its state is the stored Conversation, the copy an
advance holds in memory, the Open Questions, and a record of every `execute` invoked. One advance is
a chain of steps, each ending in one durable effect, so that a crash between any two effects is just
another step. The environment steps are: a crash, an expired lease, the User answering or deleting a
question, and the four appends of the watcher. `LoopDriver.dfy` is the same program as a class, with
fields updated in place, a loop over model attempts and one over tool calls; each method records the
steps it takes, and `Advance` promises that what is stored afterwards is a state of a legal run.
Every theorem about runs is therefore a theorem about the driver. What an advance, a posting or a
`create` meets on its way (grants, the model's answers, the ledger's, a look that fails) is a parameter of
the method that meets it.

| module | what it is about |
|---|---|
| `CanonicalJson`, `Keys` | one text per call, and the keys made from it |
| `Conversations`, `Loop`, `IntentLog` | the log, the steps, and what every row keeps of the intent log |
| `ExactlyOnce` | at most one invocation per key, announced by a stored intent |
| `Approvals`, `ApprovalAccounts`, `Tallies`, `ApprovalCounts` | what a yes pays for, and how requests and stamps add up |
| `Settings`, `Turns`, `Scenarios` | exactly when each of those promises holds, with a run for each way it fails |
| `Pairing`, `Transcripts` | when the messages sent pair every call with its result, and what they say |
| `Progress`, `Growth`, `Cost` | bounds on advances, on rows, and on unrecorded spend |
| `LoopDriver`, `Waking`, `Runs` | the imperative driver as a refinement, what the watcher stirs, and runs built step by step |
| `Ledger`, `Firefly` | one booking, and bookings under concurrency |
| `Payment`, `Journals` | loop and ledger as one machine: one live journal for a yes, and exactly when |
| `Things`, `Specs`, `Repository` | the document lens, the Conversation's own, and search-then-create |
| `Registry` | the grant and catalogue join, and the wire names |
| `Markup`, `Texts` | tool calls read out of markup |
| `Email`, `MessageIds` | the fetch planner, part numbers and references, and made-up identities |

## Premises

- One replica runs, and the watcher and an advance take turns on a Conversation
  (`runtime/src/loop/advance.ts:415-421`). The User may change questions at any moment.
- SHA-256 and its 16-digit prefix are injective: an arguments hash is the canonical text itself, and
  in a key text it goes by a hexadecimal digest no two texts share. The eight-digit digest in a markup
  call's id need not be injective; those ids are told apart by their number.
- Reported usage is honest: what the provider reports was spent, and so were the two counts an Operation
  reports, unless one of them is negative; of such a report nothing is assumed and nothing is added.
- A finite number in call arguments is carried as the one text JavaScript prints for it.
- In `Payment`, one Operation books (`bookkeeping.postTransaction` is the only one that does); other
  callers post under keys of their own, as `OthersKeysAreNotOurs` says they do; and no group stands
  under the Conversation's keys before it is born. `Trusted` names what is relied on at single moves: an
  answer that is heard, a post that does not land after its process has died, and a recovery that is
  told. `OneLiveJournalExactlyWhen` shows that all three are needed. Deleted journals need no premise.
- What the approval gate promises is proved of every run of a `Setting`, whose flags are checked at the
  step where they matter, before it is taken; `Scenarios` proves for each promise exactly which flags
  break it. `TruthfulRun` and `Fair` are the same conditions for one run and one pair.
- `Undisturbed`, `Modest` and `SerialRun` are premises of the theorems that name them.
- The store's and the ledger's searches see everything they are asked for. The page of five in the
  second look of `create`, and the bounded look of a mail poll, are modelled as they are. A read of an
  Open Question may fail wherever the program carries on without it: at the gate and in the watcher.

## Where the code and its promises part

- **Pairing.** The escalations for an unknown Assistant and for the turn limit run before recovery,
  and the watcher delivers a child's result to any caller that has not finished. Both can put a row
  between an intent a crash left open and its result, after which the next list of messages is not
  accepted by a provider. `MessagesPairUnlessOverlaid` says exactly when; `LimitBreaksPairing` and
  `DeliveryBreaksPairing` are runs.
- **Headroom.** Five rows do not cover a Turn of three calls: `ThreeCallsOverrun`, and
  `BoundIsReached` for every Turn that may need more. The watcher's own appends never ask whether the
  log is full, which `Modest` has to assume for them.
- **An approval is for arguments, not for an Operation.** The key of an approval question omits the
  Operation's name, so one yes can serve two Operations called with equal arguments:
  `SharedArgumentsRepeat` and `SharedArgumentsMiscount` are runs, `YesCarriesOver` says which attempts.
- **A yes is spent by a recorded value only.** An effect that landed behind an error, or one that
  recovery cannot tell of, leaves its yes valid (`SpentExactlyByStamp`): `HiddenEffectRepeats` and
  `MissedEffectRepeats` are runs of the loop, `LostAnswerBooksTwice`, `LatePostBooksTwice` and
  `MissedJournalBooksTwice` of loop and ledger.
- **Recovery stamps what it is told, not what was asked.** An interrupted call is stamped whenever its
  Operation needs an approval by then and it settles as a value. So an Operation that only reads, ticked
  to need one, is stamped though it never ran (`ReadOnlyStampsForNothing`), a call that ran freely is
  stamped if its Operation needs an approval by the time it is recovered
  (`ChangedApprovalStampsForNothing`), and so is one reconcile is wrong about
  (`InventedValueStampsForNothing`).
- **A deleted approval question** is asked again: `DeletedQuestionIsAskedAgain`.
- **A question that cannot be read counts as deleted**: one failed read at the gate and a call the User
  declined is put to them again (`UnreadQuestionIsAskedAgain`; `AskedAgainExactlyWhen` says when). A
  failed read of the watcher wakes the Conversation for nothing, and breaks none of the promises proved.
- **Converging on one Thing** happens at the second look only (`FirstLookMayDiverge`), and not even
  then if one creator looks again before the other adds (`SecondLookMayDiverge`). Every caller is
  referred to one Thing exactly when nobody adds while one stands there: `OneThingExactlyWhen`.
- **A number too large** for JavaScript has the text of null: `TooLargeReadsAsNull`.
- **Looking before posting** does not hold off a racing call: `RacingCallsBookTwins`, and
  `NoTwinsExactlyWhen` for when it does.
- **Matching a posting** by "as many, and each among them" is not a pairing when two of its splits
  are the same: `EqualSplitsMismatch`.
- **Made-up message identities** of two folders or hosts can be the same, as `a b` and `a-b` are:
  `OwnTokenExactlyWhen`.
- **Wire names** of Operations with an underscore right before a dot, a colon or another underscore
  do not come back: `WireRoundTrip`.

## Model

| member | source | states |
|---|---|---|
| `CanonicalJson.SameTextSameMeaning` | runtime/src/loop/advance.ts:154-166 | Two well-formed argument values have the same canonical text exactly when they mean the same: equal up to key order at every depth, absent-versus-undefined members and infinite numbers read as null, array order significant |
| `CanonicalJson.TooLargeReadsAsNull` | runtime/src/loop/advance.ts:158-159 | A number too large for JavaScript, as 1e999 is, gives its call the text of the call that has null there |
| `CanonicalJson.SortKeeps` | runtime/src/loop/advance.ts:161-164 | Sorting an object's printed members, keys distinct, puts them in key order and leaves the dictionary they spell as it was |
| `CanonicalJson.SortedIsUnique` | runtime/src/loop/advance.ts:161-164 | A sorted list of printed members is determined by the dictionary it spells, so key order in the input leaves no trace |
| `CanonicalJson.QuoteDecodes` | runtime/src/loop/advance.ts:158-165 | A quoted string, whatever follows it, is read back character for character: no two strings print alike and none runs into what follows |
| `CanonicalJson.ValueDecodes` | runtime/src/loop/advance.ts:158-165 | A printed value, followed by whatever may follow one, comes off the front of a text in one way only: neither printer nor nesting is ambiguous |
| `CanonicalJson.TextReads` | runtime/src/loop/advance.ts:158-165 | A printed string, its escapes read as RFC 8259 reads them, is the text it was printed from |
| `CanonicalJson.ValuesRead` | runtime/src/loop/advance.ts:158-165 | Literals and numbers are written as JSON writes them, items in order with a comma between, members in the order of their keys |
| `Keys.DecimalInjective` | runtime/src/loop/advance.ts:650-652 | Two counters printed alike are the same counter |
| `Keys.KeyTextInjective` | runtime/src/loop/advance.ts:650-652 | No two calls, escalations or approvals, of one Conversation or of two, share an idempotency key text |
| `Keys.DecimalReads` | runtime/src/loop/advance.ts:650-652 | The digits of a counter, read one by one, give the counter |
| `Keys.KeyTextsRead` | runtime/src/loop/advance.ts:886-894 | The three keys as they are written: thing:n, thing:escalation:n and approval:thing:digest:attempt |
| `Conversations.MaxSeq` | runtime/src/loop/advance.ts:137-140 | The number the next row is counted from is the largest in the log, wherever it stands |
| `Conversations.UnresolvedFrom` | runtime/src/loop/advance.ts:400-410 | Finds an intent whose key no result carries, and finds none exactly when every intent is answered |
| `Conversations.LastRequest` | runtime/src/loop/advance.ts:203-204 | The request the walk-back reads is one for this pair, and none is found only when there is none |
| `Conversations.FirstAnswer` | runtime/src/loop/advance.ts:238-239 | The answer the walk-back reads answers that question, and none is found only when there is none |
| `Conversations.UnreadIsMissing` | runtime/src/loop/advance.ts:907-918 | A question that could not be read counts as one that is missing, whatever the User answered |
| `Conversations.Raise` | runtime/src/services.ts:95-121 | Raising under a key hands back a live question with that key and never touches the others |
| `Conversations.CollectMessages` | runtime/src/loop/advance.ts:330-381 | Filling the message list row by row gives the list the log determines, which PromptTellsTheTale says what it is |
| `IntentLog.IntentKeeps` | runtime/src/loop/advance.ts:650-675 | An intent numbered and keyed by the next number keeps the log in order and becomes its one open key |
| `IntentLog.ResultKeeps` | runtime/src/loop/advance.ts:522-538 | The open intent's result closes it, and keeps one result per intent, each naming its intent's Operation and arguments |
| `IntentLog.UnkeyedKeeps` | runtime/src/loop/advance.ts:323-328 | Any other row leaves the open key as it was |
| `ExactlyOnce.StepKeeps` | runtime/src/loop/advance.ts:430-763 | Every step of an advance, every crash and every step of the environment keeps the intent log well formed, every invocation announced by a durable intent, and the call in hand unexecuted |
| `ExactlyOnce.LogIsAppendOnly` | runtime/src/loop/advance.ts:323-328 | A step adds rows or tokens to the stored log and never removes or rewords a row |
| `ExactlyOnce.InvokedAtMostOncePerKey` | runtime/src/loop/advance.ts:515-563 | In every state of every crashing run: one invocation per key, each with a stored intent for its Operation and arguments, intent keys distinct, one result each, and at most the latest intent open |
| `ExactlyOnce.OnlyFreshIntentsExecute` | runtime/src/loop/advance.ts:631-737 | The only step that runs anything runs the one intent still open in the store, under a key nothing ran under before; recovery runs nothing |
| `Approvals.GateReadsAYes` | runtime/src/loop/advance.ts:196-259 | A valid approval read with a call in hand was asked for, answered yes and recorded before that call's intent, and nothing since its answer has spent it |
| `Approvals.WaitsExactlyUntilAnswered` | runtime/src/loop/advance.ts:196-259 | The gate and the watcher take one view of a question: a call waits on it exactly until something is filled in, and what is no yes declines it |
| `Approvals.OneYesOneStampedCall` | runtime/src/loop/advance.ts:238-259 | Over every crashing run an approved execution was requested and said yes to first, and one yes runs the same call twice only if the first result was recorded without a stamp |
| `Approvals.SpentExactlyByStamp` | runtime/src/loop/advance.ts:247-270 | After a result the same yes is consumed exactly if the result carries this pair's stamp, and still valid otherwise |
| `Approvals.OnlyTheGateLetsThrough` | runtime/src/loop/advance.ts:688-706 | A call comes to a question or to the Operation through the gate only, and to its outcome only by being run |
| `ApprovalAccounts.RecoveryStamps` | runtime/src/loop/advance.ts:975-990 | Recovery stamps an interrupted call with the intent's own arguments exactly when its Operation is granted, needs an approval, and either only reads or says itself that the call came to a value |
| `ApprovalAccounts.EachYesPaysForOneEffect` | runtime/src/loop/advance.ts:749-751 | In every run in which execute answers a value over what lands under a yes and recovery tells of every such call: two landed approved effects never share a yes, if no question serves two Operations; calls that share one have the same arguments in any case |
| `ApprovalAccounts.StepStaysPaid` | runtime/src/loop/advance.ts:745-751 | Of any calls that have run, a step that stamps them whenever it puts their result on record leaves each one with a result a stamped one, in the store and in memory |
| `ApprovalAccounts.IntentNamesTheCall` | runtime/src/loop/advance.ts:958-968 | What recovery settles is the call that ran under the intent's key: the Operation it names is the one that ran |
| `ApprovalAccounts.WithoutAYesNothingRuns` | runtime/src/loop/advance.ts:211-236 | While nobody says yes to the latest question about a call, nobody deletes it and each read of it at the gate succeeds, no run executes that call under an approval or asks about it again: a decline is final, an unanswered request gains no sibling |
| `ApprovalAccounts.AskedAgainExactlyWhen` | runtime/src/loop/advance.ts:907-918 | A call back at the gate with a question nobody has said yes to is put to the User again exactly when that question could not be read |
| `ApprovalAccounts.RaiseAdopts` | runtime/src/loop/advance.ts:871-905 | Searching first, raising never makes two live questions under a key, hands back an existing one exactly when it carries the key, and a retry after a crash gets the same one |
| `ApprovalAccounts.YesCarriesOver` | runtime/src/loop/advance.ts:886-896 | The approval key does not name the Operation: another Operation with the same arguments is approved by the same yes exactly when its attempt number is the one that question was raised for |
| `Tallies.RequestsWithinStamps` | runtime/src/loop/advance.ts:196-259 | In a log where something is stamped between any two requests for a pair, requests exceed stamps by at most one, and by none once settled |
| `Tallies.StampsWithinRequests` | runtime/src/loop/advance.ts:196-259 | In a log where every stamp was earned by an answered request, stamps never exceed requests, and stay below while an answered request is unspent |
| `Tallies.LastRequestIsLast` | runtime/src/loop/advance.ts:203-204 | The request read is the last one for the pair: no later row asks for it |
| `Tallies.FirstAnswerIsFirst` | runtime/src/loop/advance.ts:238-239 | The answer read is the first one to the question: no earlier row answers it |
| `Tallies.ValidIsReady` | runtime/src/loop/advance.ts:238-259 | A valid approval means the latest request was answered and nothing has been stamped since |
| `Tallies.AskingIsSettled` | runtime/src/loop/advance.ts:854-868 | The gate asks again only once every earlier request for the pair has its stamp |
| `ApprovalCounts.StepCounts` | runtime/src/loop/advance.ts:820-905 | A step that deletes no approval question, fails to read none about a call of the pair at the gate, puts these arguments to the User for this Operation only, and recovers as a value no call of the pair that did not run under a yes, keeps requests, answers and stamps of the pair in their order |
| `ApprovalCounts.RequestsMatchStamps` | runtime/src/loop/advance.ts:196-284 | Over every run of such steps, stamped results <= requests <= stamped results + 1 for the pair; when that holds of all pairs is CountsMatchExactlyWhen |
| `Settings.SafeStamps` | runtime/src/loop/advance.ts:975-990 | In every run of such a setting each stamped result has, one to one, a question of its own that was confirmed and asked for that Operation with those arguments |
| `Settings.StampedNowRan` | runtime/src/loop/advance.ts:975-1003 | Where approvals stay as they are, only Operations that change something ask for one, and reconcile says a value only of calls that ran: a step stamps a call only if it ran under a yes |
| `Scenarios.OneEffectPerYesExactlyWhen` | runtime/src/loop/advance.ts:247-284 | No yes lets two effects through, in all runs of a setting, if and only if effects never hide behind an answer that is no value, recovery never misses one, and no two Operations are put to the User with the same arguments |
| `Scenarios.OneYesPerStampExactlyWhen` | runtime/src/loop/advance.ts:975-990 | Stamped results map one to one to confirmed questions, in all runs of a setting, if and only if read-only Operations ask for no approval, approvals do not change, reconcile invents nothing, and no two Operations share arguments |
| `Scenarios.CountsMatchExactlyWhen` | runtime/src/loop/advance.ts:196-284 | Stamped results <= requests <= stamped results + 1 for every Operation and arguments, in all runs of a setting, if and only if, besides, no approval question is deleted and the gate can read them |
| `Scenarios.HiddenEffectRepeats` | runtime/src/loop/advance.ts:701-751 | A run in which an effect lands behind an error, its yes stays valid, and the retry lands under it too |
| `Scenarios.MissedEffectRepeats` | runtime/src/loop/advance.ts:992-998 | A run in which recovery finds the Operation gone over a landed call, the yes stays valid, and the call lands again |
| `Scenarios.SharedArgumentsRepeat` | runtime/src/loop/advance.ts:871-905 | A run in which a second Operation called with equal arguments adopts the question and runs under the same yes: two effects and two stamps |
| `Scenarios.SharedArgumentsMiscount` | runtime/src/loop/advance.ts:871-905 | A run in which two Operations with equal arguments leave one of them with three requests and one stamp |
| `Scenarios.ReadOnlyStampsForNothing` | runtime/src/loop/advance.ts:975-1003 | A run in which an interrupted read-only call that needs an approval is stamped though nothing ran and nobody was asked |
| `Scenarios.ChangedApprovalStampsForNothing` | runtime/src/operations/registry.ts:443-463 | A run in which a call needed no approval when it ran and is stamped by a recovery that finds one needed |
| `Scenarios.InventedValueStampsForNothing` | runtime/src/loop/advance.ts:1010-1031 | A run in which reconcile says a value of a call that never ran, and it is stamped |
| `Scenarios.DeletedQuestionIsAskedAgain` | runtime/src/loop/advance.ts:206-210 | A run in which a deleted question is asked again: two requests and no stamp |
| `Scenarios.UnreadQuestionIsAskedAgain` | runtime/src/loop/advance.ts:907-918 | A run in which a declined call is made again and one read of its question fails: it is asked again, two requests and no stamp, though nobody said yes and nothing was deleted |
| `Payment.CallTextTellsTheKey` | runtime/src/loop/advance.ts:650-652 | The key texts of two calls of a Conversation are the same only for the same call |
| `Payment.OthersKeysAreNotOurs` | runtime/src/loop/advance.ts:650-652 | No call, escalation or approval of another Conversation goes by a key of this one's calls |
| `Payment.PayingIsStamped` | runtime/src/loop/advance.ts:984-990 | Whatever is recorded or recovered of a booking whose yes paid for a journal that stands is stamped |
| `Payment.WhoBooks` | import/operations/bookkeeping/postTransaction.ts:76-162 | What is booked under a key of this Conversation is booked by the one call in flight, under the key in hand, under which nothing ran before |
| `Payment.MoveKeeps` | import/operations/bookkeeping/postTransaction.ts:76-170 | Every move of loop, connector, User and other callers, and every death of the process, keeps: each group of ours was booked by the call of its key; a call has landed exactly when a group is under its key; and every call whose yes paid for a live journal and that has a result has a stamped one |
| `Payment.MoveHonours` | import/operations/bookkeeping/postTransaction.ts:85-162 | Every such move keeps: each group under a key of this Conversation books what the call made under that key ordered |
| `Payment.EachYesPaysForOneJournal` | import/operations/bookkeeping/postTransaction.ts:1-170 | Over every run of loop and ledger together, wherever the process dies and whatever the User deletes: each group books what the call of its key ordered; what let it through is a confirmed question, asked for arguments that order just that; and no question let through two journals that are both live |
| `Journals.LostAnswerBooksTwice` | import/operations/bookkeeping/postTransaction.ts:138-161 | A run in which the ledger books and its answer is lost, so the call reads as an error and its yes books a second live journal |
| `Journals.LatePostBooksTwice` | import/operations/bookkeeping/postTransaction.ts:138-161 | A run in which the process dies over a post on its way, recovery finds nothing under its key, the post lands late, and the yes books a second live journal |
| `Journals.MissedJournalBooksTwice` | runtime/src/loop/advance.ts:992-998 | A run in which the process dies over a journal just booked, recovery finds the Operation gone, and the yes books a second live journal |
| `Journals.OneLiveJournalExactlyWhen` | import/operations/bookkeeping/postTransaction.ts:1-170 | A yes pays for at most one live journal, in all runs, if and only if no answer of the ledger is lost, no post lands after its process has died, and no recovery misses a journal that stands |
| `Pairing.ScanDecidesPairing` | runtime/src/loop/advance.ts:330-381 | Reading messages left to right with one call in hand decides whether every call is followed at once by its result and no result stands alone |
| `Pairing.MessagesPairUnlessOverlaid` | runtime/src/loop/advance.ts:717-746 | Over every crashing run, the messages sent to the model are well paired exactly when no row was ever put between an intent and its result |
| `Pairing.OnlyDisturbancesOverlay` | runtime/src/loop/advance.ts:440-493 | The only steps that put a row there are a guard that ends or escalates before recovery and a result delivered to a crashed caller |
| `Pairing.UndisturbedRunsPair` | runtime/src/loop/advance.ts:517-544 | Runs without such a step send well-paired messages only, wherever they crash |
| `Pairing.DeliveryBreaksPairing` | runtime/src/watcher/watcher.ts:910-1045 | A run in which a child's result, delivered to a caller that crashed mid-call, leads to a list that is not well paired |
| `Pairing.LimitBreaksPairing` | runtime/src/loop/advance.ts:473-493 | A run in which the turn limit, checked before recovery, leads to a list that is not well paired |
| `Transcripts.PromptTellsTheTale` | runtime/src/loop/advance.ts:330-381 | Over every crashing run, a prompt is the system message and then, in order and nothing else, what was said: the prompt of birth as the User's, replies as the Assistant's, each call with its own Operation and arguments and the first of a Turn with the model's prose, each result under its call's key, and every answer, timeout and note as the User's; what was stored earlier comes first |
| `Transcripts.StepTells` | runtime/src/loop/advance.ts:330-381 | Each step adds to the log just what it says: its own words, call, result or note, under the role it has in the conversation |
| `Transcripts.UnlistedRowsSpeak` | runtime/src/loop/advance.ts:374-377 | A row of a kind that is not listed is said only if it has a text, so an approval request never is |
| `Progress.StepWithin` | runtime/src/loop/advance.ts:473-493 | Turns left, six for each escalation left and one for an open intent: no step, crash included, increases that sum plus the advances completed |
| `Progress.StepAsksFewQuestions` | runtime/src/loop/advance.ts:1094-1140 | Escalation questions carry counts between one and the maximum and no key has two live questions, whatever is crashed or retried |
| `Progress.AdvancesBurnFuel` | runtime/src/loop/advance.ts:430-493 | From any reachable state at rest, completing n more store-changing advances takes n off what is left of turns, escalations and open intents, or n - 1 and the Conversation is over, wherever the run crashes |
| `Progress.RunsAreBounded` | runtime/src/loop/advance.ts:1094-1156 | In every run, crashes included: completed store-changing advances are bounded, turnCount <= maxTurns <= initial + 5 escalations, no two live questions share a key, and at most maxEscalations escalation questions are live at once |
| `Growth.StepIsRoomy` | runtime/src/loop/advance.ts:515-763 | Every step keeps the rows an advance has added plus those it may still need within u + a + 2c + 1 |
| `Growth.AdvanceAddsAtMost` | runtime/src/loop/advance.ts:99-109 | Wherever an advance is, it has added at most u + a + 2c + 1 rows; one that began past the guard ends failed without passing MAX_ENTRIES |
| `Growth.ModestRunStaysWithin` | runtime/src/loop/advance.ts:319-321 | Where that sum stays within the headroom and the watcher finds room when it appends, stored and in-memory logs stay within MAX_ENTRIES |
| `Growth.BoundIsReached` | runtime/src/loop/advance.ts:99-109 | The bound is exact: for every u of at most one, every a below the attempts and every c, and for all attempts failed and no call, a legal run whose last advance has that allowance stores all of u + a + 2c + 1 rows, and so overruns whenever that is more than the headroom |
| `Growth.ThreeCallsOverrun` | runtime/src/loop/advance.ts:99-109 | A legal run that the guard lets through and whose one Turn of three calls stores more than MAX_ENTRIES rows |
| `Cost.StepBalances` | runtime/src/loop/advance.ts:602-669 | Every token spent is on a stored row, in the memory of the Turn at work, or lost: kept by every step |
| `Cost.StepLoses` | runtime/src/loop/advance.ts:753-762 | What a step loses is exactly what it spends or drops without any row carrying it |
| `Cost.CostIsAFloor` | runtime/src/loop/advance.ts:1282-1333 | In every reachable state the rows carry at most the true spend; between advances exactly that, if and only if no attempt failed or went unreported, no crash dropped tokens, no tool Turn made no call and every spending Operation returned a value and two counts, neither negative; what an Operation so reports is trusted count by count, and any other report adds nothing |
| `LoopDriver.Driver.constructor` | runtime/src/services.ts:123-160 | A driver starts at a Conversation as it is born, running, with its one prompt as row one and an empty run behind it |
| `LoopDriver.Driver.AppendEntry` | runtime/src/loop/advance.ts:323-328 | Appends one row, numbered after all others |
| `LoopDriver.Driver.RaiseQuestion` | runtime/src/services.ts:95-121 | The search loop finds or adds the question the specification says |
| `LoopDriver.Driver.StampSpentApproval` | runtime/src/loop/advance.ts:269-271 | Stamps the row just appended and nothing else |
| `LoopDriver.Driver.Suspend` | runtime/src/loop/advance.ts:928-953 | Stores the suspended Conversation, field by field, as the one committing step, and nothing else |
| `LoopDriver.Driver.EscalateByKey` | runtime/src/loop/advance.ts:1094-1156 | Counts and notes; then past the cap stores the Conversation failed, and else waiting on a live question under this escalation's own key; only steps of an advance, the last a commit |
| `LoopDriver.Driver.EndBecauseFull` | runtime/src/loop/advance.ts:1182-1208 | Stores the Conversation failed, with a last row exactly if there is room |
| `LoopDriver.Driver.Reconcile` | runtime/src/loop/advance.ts:958-1031 | Settles an interrupted call without running it, as its Operation says, and stamps its result exactly when a landed call needed an approval |
| `LoopDriver.Driver.CallModelWithRetries` | runtime/src/loop/advance.ts:1037-1075 | The retry loop leaves exactly one row for each failed attempt before the one that answered, or for all of them, hands back the first answer that is no transient failure, and changes nothing else |
| `LoopDriver.Driver.RaiseApproval` | runtime/src/loop/advance.ts:879-905 | The question first, under the next attempt's key, then the request row with that question |
| `LoopDriver.Driver.GateOnApproval` | runtime/src/loop/advance.ts:820-869 | Goes ahead under no approval or the valid one it read, denies a call not granted or one it read as declined, and else holds it, on the question it read as pending or a new one if it read none to use; any read may fail, and the User is at work in between |
| `LoopDriver.Driver.WriteIntent` | runtime/src/loop/advance.ts:650-676 | The intent is stored before anything runs, under the next number, prose and cost on the first of the Turn only |
| `LoopDriver.Driver.RecordResult` | runtime/src/loop/advance.ts:717-761 | A pending outcome is recorded unstamped and stored suspended on its question; any other is the next row, stamped with the arguments exactly when a yes was spent on a value, and the prompt and completion counts the Operation reports are added to those of the Turn's first row when neither is negative |
| `LoopDriver.Driver.MakeCalls` | runtime/src/loop/advance.ts:620-770 | The loop over a Turn's calls leaves the Conversation stored waiting behind a result, or running, the lease released and no Turn or escalation counted |
| `LoopDriver.Driver.Recover` | runtime/src/loop/advance.ts:515-563 | Recovery, as the Operation and its grant settle it, ends stuck on a live question or failed, or waiting behind the call's result, or has stored that result and goes on to the Turn |
| `LoopDriver.Driver.Conclude` | runtime/src/loop/advance.ts:580-770 | What the model answered leads to an escalation, to a last reply stored done, or to the calls, one Turn counted in each case |
| `LoopDriver.Driver.Advance` | runtime/src/loop/advance.ts:430-770 | Which note it ends with follows from the Conversation, the Assistant found, its grants, what the Operation says of an interrupted call and the model's first answer that is no transient failure; each note says what is stored: untouched when finished or leased; ended full; unleased when disabled; stuck, on a live question of its own key or failed past the cap, with five more turns at the limit; waiting behind a result; done behind a reply; or running, one Turn on. The steps are those of one advance, from its Begin to its last write, and extend the legal run so far |
| `LoopDriver.CrashAnywhere` | runtime/src/loop/advance.ts:400-410 | The process may die between any two effects: the run cut short there and crashed is legal and leaves the store as last written |
| `LoopDriver.DriverInvokesOnce` | runtime/src/loop/advance.ts:515-563 | So every driver has invoked at most once per key, each time for an intent that is in its store |
| `Waking.StirsExactlyWhen` | runtime/src/watcher/watcher.ts:660-740 | An advance may begin exactly on a Conversation neither finished nor leased; the watcher answers exactly for a question that is there and filled in, gives up one that is gone, and wakes whoever asked to be woken |
| `Waking.WakingStores` | runtime/src/watcher/watcher.ts:740-905 | What the watcher stores: one row at the end, of its kind and with its text, and the Conversation running again; a child's result leaves whoever does not wait for one as it was |
| `Ledger.MatchIsPairingExactly` | import/operations/bookkeeping/postTransaction.ts:21-52 | Every match of equal length is a one-to-one pairing exactly when the wanted splits differ pairwise or one has no finite amount |
| `Ledger.DifferentSplitsPairUp` | runtime/src/connectors/firefly.ts:469-485 | For pairwise different splits, matching and pairing one to one are the same |
| `Ledger.EqualSplitsMismatch` | import/operations/bookkeeping/postTransaction.ts:44-52 | Two equal wanted splits can be matched by one booked split while another booked one stays unmatched |
| `Ledger.InjectiveIsOnto` | import/operations/bookkeeping/postTransaction.ts:44-52 | As many different places as there are leave none out |
| `Ledger.Books.constructor` | import/operations/bookkeeping/postTransaction.ts:76-83 | A ledger begins empty |
| `Ledger.Books.BuildRows` | import/operations/bookkeeping/postTransaction.ts:85-128 | Rows exist exactly when every order's accounts and category are known and a stated currency is not at odds with one its source account keeps, each row with the ids of its own order's names |
| `Ledger.Books.FindSamePostingForThing` | import/operations/bookkeeping/postTransaction.ts:37-54 | The first live group of the Thing that books the same splits, or none when there is none |
| `Ledger.Books.Post` | import/operations/bookkeeping/postTransaction.ts:138-160 | A checked post collides with any group, live or deleted, that equals it; else books it, refuses it, or books it unheard, just as the ledger answers |
| `Ledger.Books.Execute` | import/operations/bookkeeping/postTransaction.ts:76-162 | Books exactly what was ordered if names resolve, no live group has the key or books the same for the Thing and the ledger accepts, over the hash of a group said to be gone too; is refused only for one of those reasons; hands back the live group else; and keeps keys unique and twins away |
| `Ledger.DifferenceTells` | import/operations/bookkeeping/postTransaction.ts:21-31 | Two splits are told apart by day, cents, kind and either account, by nothing else, and an amount that is no finite number is the same as none |
| `Ledger.CentsAreNearest` | import/operations/bookkeeping/postTransaction.ts:22-22 | The cents of an amount are the nearest, of two as near the one further from nothing |
| `Ledger.Books.Reconcile` | import/operations/bookkeeping/postTransaction.ts:164-170 | Says landed exactly when a live group carries the key |
| `Firefly.StepKeeps` | runtime/src/connectors/firefly.ts:314-459 | Every step of every caller, answer, failure, clean-up and deletion keeps calls in turn, entries newest, probes true and live keys unique |
| `Firefly.OneBookingPerKey` | runtime/src/connectors/firefly.ts:314-343 | Under any interleaving at most one call runs per key, an entry is its key's newest call and goes once all have settled and cleaned up, and no two live groups share an external id |
| `Firefly.SerialCallsBookNoTwins` | runtime/src/connectors/firefly.ts:412-428 | When calls are serialised, no posting is booked that matches a group then live for its Thing under any key |
| `Firefly.NoTwinsExactlyWhen` | runtime/src/connectors/firefly.ts:405-459 | In every run no posting is booked twice for a Thing, under whatever keys, exactly when nobody books the same for it between a call's match and its post |
| `Firefly.RacingCallsBookTwins` | runtime/src/connectors/firefly.ts:412-428 | Two calls under two keys that both look before either posts book one posting twice |
| `Firefly.Connector.PostTransaction` | runtime/src/connectors/firefly.ts:314-343 | Joins the chain of its key and becomes its entry |
| `Firefly.Connector.CleanUp` | runtime/src/connectors/firefly.ts:337-342 | Removes the entry only while it is this call's own |
| `Firefly.Connector.PostOnce` | runtime/src/connectors/firefly.ts:345-459 | With everybody else at work at every await, settles with the group it booked, of the rows its names resolved to, or a live one that carries its key or is of its Thing; and is refused only if names do not resolve, an answer is no acceptance, or a collided group is said to stand |
| `Firefly.Connector.Send` | runtime/src/connectors/firefly.ts:430-459 | The checked post, and over the hash of a group said to be gone the unchecked one, book at most once and tell which group; refused only by the ledger's answers or a group said to stand |
| `Things.Collected` | runtime/src/a12/things.ts:274-294 | An object filled under distinct keys holds each defined value under its key and nothing else |
| `Things.ToDocument` | runtime/src/a12/things.ts:274-294 | The loops over fields, groups and the rows of each group build the body the specification names |
| `Things.FromDocument` | runtime/src/a12/things.ts:296-314 | The loops over fields, groups and the rows of each group build the projection the specification names |
| `Things.RowRoundTrip` | runtime/src/a12/things.ts:281-291 | A row of mapped, defined properties comes back from the store as it was |
| `Things.UpdateIsALens` | runtime/src/a12/things.ts:393-406 | Reading back after an update: defined fields as written, undefined ones as before, written groups replaced whole, everything the spec does not name untouched |
| `Things.RestartResumes` | runtime/src/a12/things.ts:393-406 | A restart after any write resumes from exactly what was in memory, stamp included |
| `Specs.ConversationIsWellNamed` | runtime/src/a12/things.ts:183-227 | No two properties of a Conversation, or of its rows, are stored under one name, nor two names read as one property: what is proved of well-named specs holds of it |
| `Specs.ConversationIsStoredAs` | runtime/src/a12/things.ts:183-206 | What each property of a Conversation is stored as, in order |
| `Specs.EntriesAreStoredAs` | runtime/src/a12/things.ts:207-224 | What each property of a row is stored as, in order |
| `Repository.LateLookersAgree` | runtime/src/a12/things.ts:475-504 | Among interleaved creators of a key, at most five duplicates, all whose second look came after the last add return the same least Thing |
| `Repository.SerialCreatorsShare` | runtime/src/a12/things.ts:444-470 | Serialised creators of a key leave one Thing under it and all return that one |
| `Repository.FirstLookMayDiverge` | runtime/src/a12/things.ts:431-434 | Once duplicates exist a later creator is handed whichever is listed first, which need not be the one agreed on |
| `Repository.SecondLookMayDiverge` | runtime/src/a12/things.ts:475-504 | A run in which two creators both look a second time and are left on two Things |
| `Repository.FirstLookAgreesExactlyWhen` | runtime/src/a12/things.ts:431-434 | In every reachable state a first look gives the least Thing of a key, whichever is listed first, exactly when no more than one carries it |
| `Repository.OneThingExactlyWhen` | runtime/src/a12/things.ts:444-510 | In every run one Thing is left under a key and every creator that has returned, returned it, exactly when nobody added while a Thing stood there |
| `Repository.CreatorsAgreeExactlyWhen` | runtime/src/a12/things.ts:475-481 | All creators of a key that have returned agree, in all runs, exactly when none may add while a Thing stands under the key |
| `Repository.ThingRepository.Update` | runtime/src/a12/things.ts:393-406 | Replaces one document by the merge of its raw body with the mapped data, and no other document; what it then shows is exactly what was in memory, if that grew out of what was shown before |
| `Repository.ThingRepository.Read` | runtime/src/a12/things.ts:376-379 | Shows a document as its projection, or none where there is none |
| `Repository.ThingRepository.Create` | runtime/src/a12/things.ts:444-510 | With others creating at every await: refuses blank and unsearchable keys and then does nothing; returns a holder of the key, adding nothing, whenever one stood before the call; otherwise adds its own document, touching no other, and returns a holder of the key, the least one if the second look succeeds and sees at most five. Under a key it is one of the interleaved creators of the run |
| `Repository.RepositoryConverges` | runtime/src/a12/things.ts:475-504 | What is proved of all runs of creators holds of the repository: one Thing under a key, returned by all, exactly when nobody added over a standing one |
| `Repository.StampedMeans` | runtime/src/a12/things.ts:467-468 | New data is stamped with the moment, twice over unless it says when it was created, and is otherwise as it was |
| `Repository.ThingRepository.Page` | runtime/src/a12/things.ts:416-430 | A page is all the holders of a key when they fit, and some five of them otherwise |
| `Repository.ThingRepository.Winner` | runtime/src/a12/things.ts:486-489 | The row kept is the least of the page |
| `Registry.Base` | runtime/src/operations/registry.ts:272-272 | The part before the first colon has none, and is the whole key exactly when the key has none |
| `Registry.NameTellsBase` | runtime/src/operations/registry.ts:358-380 | A granted name is its declared key for a callee and the base otherwise, and tells which listing it came from |
| `Registry.EveryGrantAccounted` | runtime/src/operations/registry.ts:243-383 | Every declared key is granted under its name or dropped with its reason, nothing else is, and granted names differ pairwise |
| `Registry.GrantedExactlyWhen` | runtime/src/operations/registry.ts:243-383 | A declared key is granted exactly when its listing is not switched off, has a schema and is implemented in just the one way it says, and an assistant.call names another Assistant; each reason to drop it holds of it |
| `Registry.GrantsAreAsListed` | runtime/src/operations/registry.ts:430-520 | Every granted Operation needs an approval exactly when its own listing says so, or says nothing and its seed does; whether it changes anything and reconciles is the code's to say of a compiled one, the listing's of a stored one |
| `Registry.WarnedIsGranted` | runtime/src/operations/registry.ts:443-455 | Every compiled Operation granted without the approval its seed asks for is warned of, and nothing else but a dropped call of an Assistant |
| `Registry.DisablingRemovesExactly` | runtime/src/operations/registry.ts:274-284 | Switching off a catalogue Operation with a key of its own removes exactly the grants on that base and leaves the others in place |
| `Registry.WireRoundTrip` | runtime/src/operations/registry.ts:547-553 | The reverse mapping gives a name back, colons as dots, exactly when no underscore stands right before an underscore, a dot or a colon |
| `Registry.WireNamesInjective` | runtime/src/operations/registry.ts:547-553 | Two such names share a wire name exactly when they differ in dots and colons only |
| `Registry.OffersResolve` | runtime/src/loop/advance.ts:631-648 | Every offered call resolves back to its Operation exactly when no two offers share a wire name |
| `Registry.CleanOffersResolve` | runtime/src/loop/advance.ts:631-648 | For such names it is enough that no two differ in dots and colons only |
| `Registry.OperationRegistry.Register` | runtime/src/operations/registry.ts:210-215 | A name is registered once; a second registration changes nothing |
| `Registry.OperationRegistry.GrantedTo` | runtime/src/operations/registry.ts:243-383 | The loop over declared keys returns what the specification grants and drops, each as its own listing and code say, and has then warned of exactly the compiled Operations that resolve with less approval than they shipped with |
| `Texts.TrimsToNothing` | runtime/src/operations/registry.ts:244-246 | A declared key is left out exactly when it is blank |
| `Markup.MatchHere` | runtime/src/llm/openai.ts:257-257 | A match consumes text and names by name characters only |
| `Markup.PrintedIsMatched` | runtime/src/llm/openai.ts:257-259 | A printed element is matched whole, its body to the first close and no further |
| `Markup.PrintedIsRead` | runtime/src/llm/openai.ts:257-259 | Printed elements amid prose that opens none come back in order, and taking them out leaves the prose |
| `Markup.ToolCallsFromMarkup` | runtime/src/llm/openai.ts:284-325 | The loops over calls, parameters and JSON blocks recover what the specification says |
| `Markup.ReadArguments` | runtime/src/llm/openai.ts:292-295 | A later parameter overwrites an earlier one of its name |
| `Markup.CoercedMeans` | runtime/src/llm/openai.ts:349-367 | A value is read as the kind its schema asks for exactly when it can be, and stays the text it was else |
| `Markup.UndeclaredStaysText` | runtime/src/llm/openai.ts:337-341 | A parameter the schema says nothing of stays text |
| `Markup.RecoveredIsSound` | runtime/src/llm/openai.ts:284-325 | From arbitrary text every recovered call names an offered tool and ids differ pairwise |
| `Markup.PrintedCallsAreRecovered` | runtime/src/llm/openai.ts:284-325 | Printed calls to offered tools with distinct parameters are recovered exactly, in order, with trimmed schema-coerced arguments, and stripping leaves the prose |
| `Markup.OnlyProseIsLeft` | runtime/src/llm/openai.ts:328-334 | What is shown of such a message is its prose, trimmed |
| `Markup.NotedCallsAreRecovered` | runtime/src/llm/openai.ts:301-322 | Calls to offered tools written as blocks of JSON amid prose come back exactly and in order, each as the JSON reader reads its trimmed body |
| `Markup.BlocksAreRead` | runtime/src/llm/openai.ts:260-260 | Blocks amid prose that opens none come back in order, trimmed, a block never closed is none, and taking them out leaves the prose |
| `Markup.StrayTagsGo` | runtime/src/llm/openai.ts:328-334 | Block tags left alone are taken out, and nothing else |
| `Email.PlanFetch` | runtime/src/connectors/email.ts:687-714 | Wanted and oversized are exactly the consumed prefix in order; the budget holds or one message stands alone; candidates always mean progress; it stops only at a message that fits and cannot be paid for |
| `Email.FittingPartitions` | runtime/src/connectors/email.ts:698-711 | The two lists hold every consumed message once, each on its side of the limit |
| `Email.Mailbox.Poll` | runtime/src/connectors/email.ts:590-620 | A poll moves the oldest messages from folder to seen, in order and at least one: those it downloads within its budget and those too large; what it leaves was not looked at or could not be paid for |
| `Email.Mailbox.Drain` | runtime/src/connectors/email.ts:687-714 | Repeated polls drain any folder in at most as many polls as it has messages, seeing each once and in order |
| `Email.SortedMeans` | runtime/src/connectors/email.ts:272-302 | Each side of the cap holds exactly its named or attached parts, in order, each under its place in the whole part list, an unnamed one called attachment |
| `Email.PartitionAttachments` | runtime/src/connectors/email.ts:272-302 | The loop keeps and skips exactly those attachments under those numbers |
| `Email.ReferenceInjective` | runtime/src/connectors/email.ts:160-197 | A reference names one message and one part, or none, whatever the Message-ID looks like |
| `Email.ReplaysAreStable` | runtime/src/connectors/email.ts:140-200 | Over any replays at any caps: no reference names two things, and each attachment is stored, once, exactly when some cap has admitted it |
| `MessageIds.SameIdExactlyWhen` | runtime/src/connectors/email.ts:216-224 | Two made-up identities are the same exactly when uid and mailbox generation are and the tokens of folder and host are |
| `MessageIds.LocalIsApart` | runtime/src/connectors/email.ts:216-224 | An identity made up without a mailbox is never one made up with one |
| `MessageIds.OwnTokenExactlyWhen` | runtime/src/connectors/email.ts:227-230 | A name shares its token only with names that differ in case and surrounding space exactly when what is left of it is made of safe characters other than the dash and is not the stand-in for no name |
| `MessageIds.RunIsOneDash` | runtime/src/connectors/email.ts:228-228 | A run of characters that do not reach an identity becomes one dash |

## Left out

- Prompt texts, log lines, the wording of errors and of approval questions: rows carry fixed texts
  where the program renders a message; the text a model or a User supplies is kept.
- What a tool result says: a row records that its call has its result, and under which key and stamp.
- `lastError`, `finishReason`, `result` and the timestamps of a Conversation: nothing in the loop
  branches on them.
- The number of live questions a search by key may see past the first; the store answers truthfully.
- Real time: a lease is a boolean the environment may expire, a back-off is nothing, a wake-up is a flag.
- HTTP, Keycloak, IMAP, Gmail and Content Store transports; the store and the ledger are sequences
  and maps with the operations the program calls.
- MIME, HTML, PDF, JSON and number parsing, and the model's answers: arbitrary parameters.
- An empty catalogue, a store that refuses a write, and any other exception that leaves an advance:
  each is a crash step.
- The duplicate hash of a transaction group, taken here to be equality of the whole posting; the
  parsing of the message that names the duplicate; Unicode case folding of currencies.
- Exact decimal rounding of amounts in floating point: cents are rounded over the reals, half away
  from zero.
- `withSystemSuffix`, `parseArguments`, `describeSkipped`, `titleFor`, `toolSchemas`, `calleesOf`,
  `clientExecutable` and the constraint builders: expressions a reading settles.
- The once-per-process warning for a stored Operation without `reconcile`, which mirrors the one modelled.
- The scan cursors and page sizes of the watcher, schedules, the inbound gate and the bootstrap.
- The reading of a booking's orders out of its arguments, a parameter of `Payment`; and the picking of
  an account or category by exact, then caseless name: names resolve through a map.
- A process that outlives its lease.
- ApprovalAccounts.EachYesPaysForOneEffect: takes an effect that landed as there for good; with the
  ledger beside it, and journals deleted, the statement is Payment.EachYesPaysForOneJournal.
- ApprovalCounts.StepCounts: under the conditions it names; which failures they keep out, and that
  they are all needed, is Scenarios.CountsMatchExactlyWhen.
- ApprovalCounts.RequestsMatchStamps: for one pair and one run under those conditions, as above.
- Progress.RunsAreBounded: bounds the advances that complete, as nothing bounds how often the process
  may die, and the escalation questions that are live, as a deleted one may be raised again.
- Growth.ModestRunStaysWithin: leaves the bound on rows beyond the headroom to AdvanceAddsAtMost.
