# Verification of the trading backend's stateful cores

A Dafny model of the parts of the backend whose correctness depends on state: the order engine
(trigger rules, fills, the lot ledger), the upstream feed subscription protocol, the journal's
matcher and session rebuild, the two flatteners, the live candle builder with its aggregation, order
placement and quantity sizing. `dafny verify dfyconfig.toml` checks the whole project.

## How it is laid out

| files | what they model |
|---|---|
| `Trading` | ids, keys, sides, small arithmetic shared by all |
| `TriggerRules`, `TriggerMachine`, `TriggerSafety`, `TriggerTheorems`, `TriggerExactness`, `TriggerLaws`, `TriggerEvaluator` | the firing protocol with raising store calls: tables, steps, the invariant of every run, the theorems, their exact condition, what the handlers do to a lot's money, and the evaluator and routes as methods of a class |
| `Fills`, `Accounting` | what a fill does to a lot, and what a lot's numbers mean in cash |
| `FillMachine`, `FillSafety`, `FillTheorems`, `FillExactness`, `FillBooks`, `FillLaws`, `FillRows`, `FillRecorder` | redelivered pushes, ambiguous fills, placement records, raising store calls: steps, one-order-at-a-time invariant, theorems, their exact condition, the books of whole runs, outside fills by signed quantities, what rows remember, and the handlers as methods of a class |
| `FeedWire`, `FeedRefinement`, `FeedRecovery`, `FeedLaws`, `FeedClient` | subscription messages on a socket that drops and replays, self-heal over time, when it acts said from the history, and the feed client as a class |
| `FeedSessions`, `SessionLaws`, `FeedHub`, `FeedCoverage` | app sessions and the union of their wishes, as steps and as a class, and sessions and wire together |
| `JournalMatcher`, `JournalLaws`, `JournalStore`, `JournalRows`, `JournalDates`, `JournalRebuild` | round trips, what a trade tells of its fills, the rebuild of one date as a whole and trade by trade, what holds across dates, and the row-by-row rebuild as a class |
| `Broker`, `MaxLossFlatten`, `FlattenRace`, `PositionFlatten` | the broker's net positions, the two flatteners, and the first of them beside everything else that trades |
| `Candles`, `CandleAggregation`, `CandleLaws` | one-minute candles and longer ones, and what they say in prices |
| `Placement`, `Sizing`, `SizingLaws` | idempotent order placement, the six sizing modes and what they mean in money |

A handler that can be interrupted is cut into steps at its `await`s (or finer); a sequence of steps is
an arbitrary interleaving, and theorems about `Run` hold of all of them. The classes keep the program's
own fields and update them in place; each of their methods is shown to be one or more of those steps,
and `CheckNow`, `HandlePush` and `ReplaceSubscriptions` are shown, with any steps of other handlers at
each `await`, to be runs. Functions such as `TriggerMachine.Next`, `FillMachine.Next`, `FeedWire.Next`,
`FeedRecovery.Next`, `FeedSessions.Next`, `JournalStore.RebuiltWith`, `Placement.Answer`, `Candles.Merged`
and `Sizing.DefaultQuantity` transcribe the code; what they mean is in the lemmas below.

## What the model assumes

- Quantities are integers, prices and times reals or integers, arithmetic exact: rounding and the
  `1e-9` flatness tolerance of the matcher are not modelled.
- The broker is a parameter: book rows arrive in any order with complete as final, placements are
  accepted, rejected, or raise after landing, positions move at once when an order lands.
- `uuid4` gives ids that are not in use. In the fills model a tag stands for the key it was derived from (the hash
  is taken to be injective); in the placement model the tag function is arbitrary. A trade's
  fingerprint hash stands for the set of its allocations.
- Rows are inserted into `trigger_rules` once per id, by the armer.
- Two handlers interleave only where one of them awaits. SQLite foreign keys are on, so a row naming a
  missing lot is not written.
- Every call of a store commits on its own and can raise; a handler that raises is cut off there.
- Fills are kept in the order of time and id; the store reads them instrument by instrument, and within
  an instrument that is the same order. Fill ids are numbers ordered like their texts.

## Where the code differs from what is said about it

- `record_placement` sets an `order_history` row back to "submitted" even if a push has already recorded
  it complete (`app/services/order_history_recorder.py:80`); the redelivery guard then lets the fill through again
  (`LatePlacementReapplies`).
- The lots and the `order_history` row are written one after the other, and the handler swallows what
  raises in between: an entry whose row was not written is applied again (`UnrecordedEntryReapplies`),
  a fill whose notification raised is applied by the next delivery and by the human
  (`RaisedNotificationReapplies`), an answer cut short can be given again (`RaisedAnswerReapplies`).
  At-most-once holds exactly without these four, narrowed to the orders that can really be taken again
  (`FillSafety.Hazard`, `HazardIffCanDouble`).
- Two ticks evaluated concurrently can place both legs of a bracket; the sibling cancel happens only
  after the placement's `await`.
- One tick after the other can do so too: between the PLACED update and the sibling cancel an event is
  written and the sibling is read, and whatever raises there is swallowed with the sibling still ARMED. An
  order that lands although its placement raised leaves the sibling ARMED as well, next to a rule marked
  FAILED. Exactly these steps lead there (`LeavesIffBoth`, `SerialRunDoesBoth`).
- A failed placement is marked FAILED "rather than left FIRING forever". A lot read that raises after the
  win, or an update to PLACED or FAILED that raises, does leave the rule FIRING forever (`StuckForGood`).
- `flatten_open_lots` says it never raises; the positions call before a placement is outside its `try`.
- The comments on the D30 recovery speak of a reconnect when no D30 tick follows the reset. A tick handled
  between the reset's two messages is forgotten when the reset ends (`TickWhileSendingIsLost`).
- The cap of 45 D30 keys is one on what is wanted. It also bounds what is subscribed upstream at every
  moment of a calm run (`NeverOverTheCap`), and is exceeded when a self-heal begins before a replacement's
  unsubscription was sent (`HealOverTheCap`), exactly when its peak is over the cap
  (`HealDisturbsIffOverTheCap`).
- `upsert_fill` also overwrites the trading date, while a rebuild looks at the trades of one date: a
  linked fill that moves can end up linked to two trades (`MovesIffLinkedTwice`).
- The flatten's cap by the broker's position holds at the time the position is read: a leg that lands
  between that and the flatten's order can turn the position round (`LegInBetweenTurnsRound`).
- A subscription replacement that starts while a reconnect's replay or a self-heal is still being sent can
  be undone by the rest of it, message by message (`SettlesIffNoHazard`).
- Escalation to unsubscribing needs passes at least a stale window apart; the configured passes are ten
  seconds apart with a window of forty-five (`app/main.py:118-124`), so with them it does not happen.
- Connection generations are compared only with the live session of an instance; after a disconnect a
  lower one is accepted (`FeedSessions.GenerationForgotten`).
- A lot that was emptied stays CLOSED when another entry is applied to it (`OpenIffNeverEmptied`).
- A trade matched again by the same fills after a price correction keeps its first prices next to the new
  P&L (`PriceCorrectionShows`).
- Kelly sizing divides by zero when the average win is missing or zero (`RaisesIff`).

## Model

| member | source | states |
|---|---|---|
| TriggerRules.SortByRoleSorts | app/services/order_engine_trigger_evaluator.py:81-85 | evaluation order: stop-losses before targets before unlabelled rules, none lost or repeated |
| TriggerTheorems.VersionDeterminesRow | app/services/order_engine_ledger_store.py:400-441 | in every run a rule at the same version is the same row, and versions never go back |
| TriggerTheorems.OnlyLegalMoves | app/services/order_engine_ledger_store.py:400-441 | every state change any handler makes is ARMED to FIRING or CANCELLED, FIRING to PLACED or FAILED, PLACED to CANCELLED, each with a new version; a price moves only while ARMED |
| TriggerTheorems.FiresAtMostOnceAndNeverStale | app/services/order_engine_trigger_evaluator.py:210-220 | in every interleaving each rule wins FIRING at most once, and only on a price the firing tick satisfies |
| TriggerTheorems.WinRecordsLedgerRow | app/services/order_engine_trigger_evaluator.py:214-220 | the price of a win is the one in the ledger at that instant, not the one the pass read earlier |
| TriggerTheorems.PlacedUpdateIsNeverLost | app/services/order_engine_trigger_evaluator.py:153-158 | the branch "placed but the PLACED update lost its race" is unreachable: a winner's own updates always find their version |
| TriggerTheorems.OneExitOrderPerRule | app/services/order_engine_trigger_evaluator.py:109-132 | no interleaving sends two exit orders for one rule, or one for a rule that did not fire |
| TriggerTheorems.BothMeansRaceOrLeft | app/services/order_engine_trigger_evaluator.py:134-172 | in every interleaving, raises of any store call included, two legs of a bracket are both marked PLACED (or both their exits land) only if one won FIRING while the other was in a pass's hands, or a handler was done with one and left the other ARMED |
| TriggerTheorems.BothMeansOverlapOrLeft | app/services/order_engine_trigger_evaluator.py:165-172 | and then, unless one was left ARMED, the second won after the first had won and before the first was done with |
| TriggerTheorems.RacedLegsAreBothPlaced | app/services/order_engine_trigger_evaluator.py:153-172 | once two sibling legs both await the broker, two acceptances do place both |
| TriggerTheorems.OneCancelsTheOther | app/services/order_engine_trigger_evaluator.py:134-172 | when passes run one at a time, no two legs of a bracket are both PLACED as long as no handler is cut off between a PLACED update and the cancel of an ARMED sibling; no two of their exits land as long as, besides, every exit that lands beside an ARMED sibling gets marked |
| TriggerExactness.LeavesIffBoth | app/services/order_engine_trigger_evaluator.py:134-172 | both conditions are exact: in a serial run so far without race a step leaves one leg placed (or landed) and the other ARMED if and only if some serial continuation without a further such step ends with both legs placed (or landed) |
| TriggerExactness.SerialRunDoesBoth | app/services/order_engine_trigger_evaluator.py:153-172 | a concrete serial run that ends with both legs placed, the first handler cut off before the sibling cancel, and one that lands both exits, the first placement raising after its order landed |
| TriggerTheorems.StuckForGood | app/services/order_engine_trigger_evaluator.py:132-140 | a rule that is FIRING and in no pass's hands stays FIRING in every continuation: nothing ever picks it up again |
| TriggerTheorems.OverlappingPassesPlaceBothLegs | app/services/order_engine_trigger_evaluator.py:210-220 | a run with two overlapping passes that places both legs: "one at a time" cannot be dropped |
| TriggerLaws.ExitsCloseTheirLots | app/services/order_engine_trigger_evaluator.py:115-132 | at every step of every run, an exit order that goes out is of a FIRING rule and its signed quantity and the signed remainder of that rule's lot add up to zero, for long and short lots |
| TriggerLaws.WinnersExitOrFail | app/services/order_engine_trigger_evaluator.py:109-123 | a winner sends that order exactly when its lot has something left, and is FAILED otherwise |
| TriggerLaws.TriesWinIff | app/services/order_engine_trigger_evaluator.py:210-220 | in every run a pass wins its next row exactly when the row has not moved since it was read and the tick has reached its price from the right side |
| TriggerLaws.AnswersMarkTheirRule | app/services/order_engine_trigger_evaluator.py:134-172 | in every run an accepted order marks its rule PLACED and cancels an ARMED sibling, a failed one marks it FAILED and leaves the sibling; no other row changes |
| TriggerLaws.StopLossesComeFirst | app/services/order_engine_trigger_evaluator.py:81-85 | a pass tries stop-losses, then targets, then the others, those of one role in the order they were read |
| TriggerLaws.BracketsProtect | app/services/order_engine_lot_bracket_armer.py:51-75 | arming adds one ARMED row per price, as siblings; a target matches exactly the ticks at which the lot gains on it or stands there, a stop-loss those at which it loses or stands there, long or short; no other row changes |
| TriggerLaws.CutShortArmsTheTarget | app/services/order_engine_lot_bracket_armer.py:54-75 | an arming cut short between its two writes leaves the target's row alone |
| TriggerLaws.WinsAreOnTheRightSide | app/services/order_engine_trigger_evaluator.py:210-220 | in every run after arming, a target wins on no tick that loses from the price in the ledger, a stop-loss on none that gains |
| TriggerLaws.BrokerCancelsMarkTheirRow | app/api/order_engine_routes.py:774-785 | a confirmed broker cancel of a PLACED rule ends in CANCELLED, and nothing else changes any row |
| TriggerLaws.RoutesMarkTheirRow | app/services/order_engine_ledger_store.py:400-441 | in every run a cancel or a repricing takes effect exactly when its row has not moved since it was read, and then the row was ARMED |
| TriggerEvaluator.SortedSnapshot | app/services/order_engine_trigger_evaluator.py:210-210 | sorting a read of the armed rules keeps it a read of exactly the armed rules |
| TriggerEvaluator.Engine.CasUpdateState | app/services/order_engine_ledger_store.py:400-419 | compare-and-set of the state by version |
| TriggerEvaluator.Engine.CasUpdateConditionValue | app/services/order_engine_ledger_store.py:421-441 | compare-and-set of the price by version and ARMED |
| TriggerEvaluator.Engine.ArmedRulesFor | app/services/order_engine_ledger_store.py:387-398 | exactly the armed rules of the instrument, each once |
| TriggerEvaluator.Engine.TryNextRule | app/services/order_engine_trigger_evaluator.py:210-220 | match, then the FIRING update; if that raises the pass is over |
| TriggerEvaluator.Engine.SendExit | app/services/order_engine_trigger_evaluator.py:109-133 | FAILED with nothing to exit, else an order that cancels out what remains of the lot, long or short, or cut off by a raising read |
| TriggerEvaluator.Engine.PlacementReturned | app/services/order_engine_trigger_evaluator.py:134-172 | PLACED and the sibling cancel, or FAILED, or cut off before the first update or after it, whether or not the order landed |
| TriggerEvaluator.Engine.Await | app/services/order_engine_trigger_evaluator.py:125-125 | while a pass awaits the broker any steps of other handlers may run, and they leave the pass as it was |
| TriggerEvaluator.Engine.CheckNow | app/services/order_engine_trigger_evaluator.py:177-236 | a whole pass, with any steps of other handlers at each await and whatever raises under each rule, is a run of the machine; it leaves no rule of its snapshot untried, and only a FIRING update that raises, which is outside the loop's try, ends it early; it does something exactly when there is a tick, an open market, a token and an armed rule |
| TriggerEvaluator.Engine.ModifyBracketLeg | app/api/order_engine_routes.py:546-573 | the price moves exactly when the leg exists and is ARMED, and nothing else changes; also the body of the tighten route |
| TriggerEvaluator.Engine.CancelTriggerRule | app/api/order_engine_routes.py:742-795 | which outcome each state gives; the 409 branch of the internal cancel is unreachable since nothing is awaited between its read and its update |
| TriggerEvaluator.Engine.BrokerCancelled | app/api/order_engine_routes.py:774-785 | after a confirmed broker cancel the row is read again and cancelled only if still PLACED |
| Fills.DefaultBracketProtects | app/services/default_bracket.py:13-27 | with a positive price the default target gains and the default stop loses five percent per unit, for long and short |
| Accounting.FillKeepsBooksIff | app/services/order_history_recorder.py:232-280 | exactly when one fill keeps realized plus live P&L in step with the cash: an entry before anything was exited or at the average price, an exit of no more than remains (or of a free entry) |
| Accounting.EntryPriceIsAverage | app/services/order_history_recorder.py:234-240 | for every run of fills the entry price times the entered quantity is the entry cash |
| Accounting.Books | app/services/order_history_recorder.py:232-297 | for every run of fills realized plus live P&L misses the cash position by exactly the drift of its fills |
| Accounting.DisciplinedRun | app/services/order_history_recorder.py:279-280 | entries then exits of no more than was entered: remaining is entries less exits, OPEN exactly while positive, and no drift |
| Accounting.AccountingIdentity | app/services/order_history_recorder.py:208-297 | the accounting identity for every entries-before-exits run without over-exit, at any price, with the sign of the lot |
| Accounting.BalancedIffNoDrift | app/services/order_engine_lot_tracker.py:87-96 | for any run at all the identity holds exactly when the drifts of its fills cancel out |
| Accounting.OpenIffNeverEmptied | app/services/order_history_recorder.py:280-280 | a lot is OPEN exactly as long as it was never emptied; one that closed stays CLOSED even when a later entry fills it again |
| FillSafety.CandidatesMeanNoRole | app/main.py:1015-1099 | only a complete order whose own row carries no role is ever set aside for a human |
| FillSafety.SightingWrites | app/main.py:1101-1142 | a sighting applies a fill only of a complete order whose row did not say so, and then the row says COMPLETE with a role |
| FillSafety.StepKeepsOrders | app/main.py:953-1142 | every step of every handler, raises between two store calls included, keeps locks and names right, and keeps every order settled exactly when it is no hazard |
| FillTheorems.ResolvedNeverReturns | app/services/order_engine_ledger_store.py:781-805 | in every run, hazards included, a resolved pending fill is never pending again |
| FillTheorems.LotsAreSerial | app/services/order_history_recorder.py:147-194 | in every run the lots are the serial application of the logged fills |
| FillTheorems.AtMostOnce | app/main.py:953-1142 | in every hazard-free interleaving of pushes, resolves and failures, a store call that raises between any two writes included, each broker order changes the lots at most once, as the broker's own complete order, and the lots are those fills applied serially |
| FillExactness.HazardIffCanDouble | app/main.py:953-1142 | the condition is exact: from any settled state a step is a hazard if and only if some continuation without a further hazard applies some order twice |
| FillExactness.UnrecordedEntryReapplies | app/main.py:1123-1142 | an entry whose lot was written when the write of its row raised is applied again by the next delivery |
| FillExactness.RaisedAnswerReapplies | app/api/order_engine_routes.py:1082-1089 | an answer that raises after it changed the lot leaves the question open, and given again changes a lot again |
| FillExactness.LateExitRecordIsHarmless | app/services/order_history_recorder.py:71-93 | recording late that an untagged order was an exit or a manual one lets nothing be applied twice |
| FillBooks.BooksOfEveryLot | app/services/order_history_recorder.py:208-297 | in every run, hazards included, each lot is what its own logged fills make of it, its entry price is their entry cash per unit, and realized plus live P&L misses their cash by exactly their drift |
| FillBooks.CalmLotsBalance | app/services/order_engine_lot_tracker.py:87-96 | in every hazard-free run a lot of entries and then exits of no more than was entered balances, at any price, against distinct complete orders of the broker |
| FillTheorems.PlacedEntryOpensItsLot | app/main.py:995-1013 | a recorded entry opens the lot named by its key, with its bracket, at the first delivery of its complete order |
| FillTheorems.ExternalEntryIsProtected | app/main.py:1026-1042 | a complete order placed outside the engine, with no open lot on its instrument, opens a lot with the default bracket |
| FillLaws.OneIsTakenOff | app/main.py:1052-1072 | an outside order whose signed quantity takes off the signed remainder of exactly one open lot of its instrument moves that lot by it, cut off at zero, banks its cash and closes the lot at zero, and touches no other lot |
| FillLaws.SeveralWait | app/main.py:1073-1084 | when it takes off several, no lot changes and exactly those are the candidates of the question that is kept |
| FillLaws.AddOnChangesNothing | app/main.py:1044-1065 | when lots are open and it takes off none, lots and questions stay as they are |
| FillLaws.NothingOpenOpensALot | app/main.py:1026-1042 | when nothing is open it opens a lot of its own side, price and quantity, with target and stop five percent either way on the right sides and a rule for each |
| FillLaws.OnlyLotChangesIffOpposite | app/main.py:1052-1072 | so the only open lot of an instrument changes exactly when the order is on the other side |
| FillLaws.AnswerTakesOff | app/api/order_engine_routes.py:1065-1092 | an answer that names a candidate takes the fill off that lot, records the order as its exit and drops the question; any other changes nothing |
| FillLaws.OpenLotsAlwaysRemain | app/services/order_history_recorder.py:232-280 | in every run, hazards included, an open lot has something left |
| FillRows.NothingIsForgotten | app/services/order_engine_ledger_store.py:630-714 | in no run, raising calls included, does an order's row lose a key, role, lot or bracket price it had, or a lot go away |
| FillRows.RowsAlwaysNameLots | app/services/order_engine_ledger_store.py:630-714 | in every run every row that names a lot names one that exists |
| FillRows.QuestionsStay | app/main.py:1079-1084 | as long as a set-aside fill waits, it is the one first set aside with its first candidates, whatever is delivered later |
| FillRows.PlacementIsRecorded | app/services/order_history_recorder.py:28-93 | a placement is recorded as submitted under its key and role; bracket prices it does not give, and the lot, stay as they were |
| FillRows.SetAsideIsRecorded | app/main.py:1101-1142 | once notified, a set-aside fill's row gets its status and key and nothing else |
| FillRows.TaggedOrderIsTheRulesExit | app/main.py:985-994 | an order with the tag of a placed rule is recorded as the exit of that rule's lot whatever its status, and takes that lot down exactly when it is complete |
| FillRows.RecordedEntryAddsToItsLot | app/main.py:995-1013 | a further fill of a recorded entry is added to the lot its row names, or else to the one named by its key |
| FillRows.LegsGetTheirRules | app/services/order_engine_lot_bracket_armer.py:51-75 | a lot that processing opens has the target's rule for its target and the stop's for its stop |
| FillTheorems.LatePlacementReapplies | app/api/order_engine_routes.py:198-220 | recording the placement of an entry after its fill was applied makes the next delivery apply it again |
| FillTheorems.RaisedNotificationReapplies | app/main.py:1079-1099 | a notification that raises after the fill was set aside lets a later delivery apply it and the human's answer apply it again |
| FillRecorder.Recorder.ApplyFillToLedger | app/services/order_history_recorder.py:147-297 | the lot after an entry or exit fill, and that nothing else changes when the fill cannot be applied |
| FillRecorder.Recorder.UpsertOrder | app/services/order_engine_ledger_store.py:630-714 | status overwritten, key, role, lot and prices kept against nulls; a row naming a missing lot raises |
| FillRecorder.Recorder.OpenAndClosing | app/main.py:1024-1065 | the open lots of the instrument, and those among them on the other side of the fill |
| FillRecorder.Recorder.FindRole | app/main.py:974-1077 | role, lot and bracket by rule tag, then own row, then detection |
| FillRecorder.Recorder.ApplyAndRecordSighting | app/main.py:1101-1142 | fill first, then the row, as one step; a store call that raises leaves exactly what was written before it |
| FillRecorder.Recorder.ProcessFetched | app/main.py:955-1142 | everything between the order-book fetch and the next await is one step, whichever store call raises |
| FillRecorder.Recorder.AfterNotification | app/main.py:1085-1142 | a set-aside fill is recorded without a role, or not at all if the notification raised |
| FillRecorder.Recorder.RecordPlacementOf | app/services/order_history_recorder.py:28-93 | the placement record: always "submitted", never a lot |
| FillRecorder.Recorder.ResolvePending | app/api/order_engine_routes.py:1065-1092 | no such fill, not a candidate, or applied, recorded and dropped, or cut short by a store call that raises; whether a lot changed |
| FillRecorder.Recorder.TakeLock | app/main.py:954-955 | queueing for the order's lock among any steps of other handlers |
| FillRecorder.Recorder.Finish | app/main.py:955-1142 | from the fetched book to the end of the handler, among any steps of other handlers at its notification |
| FillRecorder.Recorder.HandlePush | app/main.py:943-1144 | a whole push handler, whichever of fetch, notification and store calls fails and whatever runs at its three awaits, is a run of the machine and lets its lock go |
| FeedRefinement.DiffRefinesReplacement | app/services/upstox_market_feed_client.py:256-305 | executing the emitted messages on the old modes gives exactly the new ones; a replay on an empty map does too |
| FeedRefinement.DiffNamesWhatChanges | app/services/upstox_market_feed_client.py:277-303 | a message names a key exactly when its mode changes |
| FeedRefinement.UpstreamIsWhatIsWanted | app/services/upstox_ws_client.py:111-128 | whenever nothing is on its way a connected socket has exactly the wanted modes, over every run of replacements, drops, reconnects and self-heals interleaved message by message in which no replacement overtakes messages that disagree with it |
| FeedRefinement.DrainSettles | app/services/upstox_ws_client.py:186-187 | left alone, a socket settles on the wanted modes |
| FeedRefinement.SettlesIffNoHazard | app/services/upstox_market_feed_client.py:293-305 | a replacement leaves the socket right, in whatever order replacement, replay and self-heal are then sent, if and only if it overtakes no replay and no self-heal that disagrees with it |
| FeedRecovery.ReconnectsFollowResets | app/services/upstox_market_feed_client.py:414-433 | every D30 reconnect follows the last reset begun before it, at least the patience earlier, with no reconnect since and no tick of a then-wanted D30 key once its messages were sent; no such tick since it began if and only if none was handled while its two messages were being sent |
| FeedRecovery.TickWhileSendingIsLost | app/services/upstox_market_feed_client.py:241-243 | a run in which a D30 key ticks between the two messages of a reset and the reconnect happens all the same |
| FeedRecovery.ReconnectsAreRare | app/services/upstox_market_feed_client.py:424-432 | two reconnects are at least sixty seconds apart |
| FeedRecovery.NudgedOncePerWindow | app/services/upstox_market_feed_client.py:471-528 | no key is nudged twice within one stale window |
| FeedRecovery.EscalationNeedsSlowPasses | app/services/upstox_market_feed_client.py:487-496 | a key is escalated only if the pass before was at least a stale window earlier |
| FeedLaws.TimestampsAreSigns | app/services/upstox_market_feed_client.py:228-314 | in every run a key's timestamp is its last tick, the start of the last pass that nudged it, or the end of the replacement that first wanted it, and is forgotten when it is no longer wanted |
| FeedLaws.ResetBeginsIff | app/services/upstox_market_feed_client.py:383-420 | in every run a call begins a D30 reset exactly when the client is connected, no recovery is under way, every wanted D30 key has shown no sign for the stale time and some wanted full or LTPC key has |
| FeedLaws.ReconnectsIff | app/services/upstox_market_feed_client.py:421-433 | and drops the socket exactly in that same silence, once a reset is out, the patience after it began and sixty seconds after the last drop |
| FeedLaws.OnlyRecoverHeals | app/services/upstox_market_feed_client.py:383-433 | nothing else begins a reset or drops the socket |
| FeedLaws.PassNudgesWhatIsQuiet | app/services/upstox_market_feed_client.py:466-502 | a pass nudges exactly the wanted keys without a sign for the stale time, and escalates exactly those that the two passes before nudged in a row |
| FeedLaws.NudgesAreStreaks | app/services/upstox_market_feed_client.py:487-530 | in every run a key's count is the number of passes in a row that nudged it |
| FeedLaws.NudgesSetTheirModes | app/services/upstox_market_feed_client.py:503-524 | whatever is subscribed upstream, a pass that gets all its messages out leaves every nudged key in the mode it is wanted in and every other key alone |
| FeedClient.NudgesHeal | app/services/upstox_market_feed_client.py:493-524 | a nudge pass only ever asks again for what is wanted, so it keeps the wire invariant |
| FeedClient.ResetHeals | app/services/upstox_market_feed_client.py:414-417 | so does a D30 reset |
| FeedClient.Client.ReplaceSubscriptions | app/services/upstox_market_feed_client.py:256-314 | the whole replacement, among any turns of the client's other coroutines at its awaits (reconnects, replay, ticks, both self-heal calls), is a run of the wire machine and of the recovery machine; afterwards the wanted modes are the ones asked for, early exit exactly when they already were, and exactly the wanted keys have timestamps; if it overtook nothing that disagrees the socket has those modes once replay and self-heal are out |
| FeedClient.Client.SendJobs | app/services/upstox_market_feed_client.py:297-305 | all messages of a replacement are sent or dropped |
| FeedClient.Client.TidyUp | app/services/upstox_market_feed_client.py:307-314 | the bookkeeping at the end of a replacement |
| FeedClient.Client.OnMessage | app/services/upstox_market_feed_client.py:228-244 | every tick of a frame is noted, a D30 tick ends a recovery |
| FeedClient.Client.CohortStalled | app/services/upstox_market_feed_client.py:401-412 | all D30 keys stale while some other key is fresh |
| FeedClient.Client.RecoverStaleD30Cohort | app/services/upstox_market_feed_client.py:383-433 | which action is taken, its effect on the recovery state and on the wire; a reset is noted when it begins |
| FeedClient.Client.AfterReset | app/services/upstox_market_feed_client.py:418-420 | the end of a reset overwrites stage and start |
| FeedClient.Client.ResendStaleSubscriptions | app/services/upstox_market_feed_client.py:466-502 | which keys a pass nudges and which of them it escalates, and the messages it sends |
| FeedClient.Client.AfterResend | app/services/upstox_market_feed_client.py:526-530 | timestamps and streaks after a pass |
| FeedSessions.LiveSessionsAreCovered | app/services/feed_subscription_manager.py:78-163 | in every reachable state each key a live session asked for is wanted in at least that mode, the D30 union is within 45, the mode sets are disjoint and an app instance has at most one session |
| FeedCoverage.SocketServesSessions | app/services/feed_subscription_manager.py:130-163 | sessions and wire together: in every calm run, whenever nothing is on its way, the socket has exactly the modes that requests, tracking, positions and lots add up to, so every key a live session asked for comes in at least that mode |
| FeedCoverage.NeverOverTheCap | app/services/feed_subscription_manager.py:18-21 | at no moment of a run in which no replacement overtakes what disagrees with it and no self-heal begins that will take the socket over 45, in the middle of a replacement, replay or self-heal, are more than 45 instruments in D30 upstream |
| FeedCoverage.HealDisturbsIffOverTheCap | app/services/upstox_market_feed_client.py:383-530 | that condition is exact for every self-heal, reset or nudge: it is a disturbance if and only if, after it, some continuation without a further one takes the socket over 45 |
| FeedCoverage.ResetPeak | app/services/upstox_market_feed_client.py:414-417 | for a D30 reset with no replay on its way that is: the keys in D30 upstream and those wanted there are together more than 45 |
| FeedCoverage.D30NudgePeak | app/services/upstox_market_feed_client.py:517-524 | likewise for a nudge that only asks for D30 keys, with the keys it asks for |
| FeedCoverage.HealOverTheCap | app/services/upstox_market_feed_client.py:414-417 | a run in which a self-heal begins before the unsubscription of a replacement was sent, and takes 46 |
| FeedSessions.RemovedSessionsContributeNothing | app/services/feed_subscription_manager.py:105-111 | without late messages of removed sessions a key is wanted in exactly the best mode that live sessions, tracking, positions and lots call for |
| FeedSessions.StepKeepsOnlyLive | app/services/stream_connection_manager.py:175-188 | the manager holds only live sessions' requests after a step if and only if the step is no accepted message of a removed session |
| FeedSessions.RemovedSessionLeaks | app/services/stream_connection_manager.py:183-188 | such a message for a new key does leave it wanted |
| FeedSessions.RejectedChangesNothing | app/services/feed_subscription_manager.py:87-103 | a subscription is accepted exactly when newer and within the cap, and then changes only its own session; otherwise nothing changes |
| FeedSessions.GenerationsGrow | app/services/stream_connection_manager.py:111-126 | while an instance stays connected its generation never falls, and a new session of it always has a greater one |
| SessionLaws.SourcesAreWanted | app/services/feed_subscription_manager.py:130-163 | in every run the instruments of the positions and lots set last are wanted, and those tracked last in full mode or D30 |
| SessionLaws.ManagerHoldsWhatWasAskedLast | app/services/feed_subscription_manager.py:78-111 | in every run the manager holds of a session exactly its last accepted message since it was last removed |
| SessionLaws.HeededIff | app/services/stream_connection_manager.py:175-198 | a message is heeded exactly when its revision is newer, a missing one being the next, and at most forty-five D30 keys are then wanted in all |
| SessionLaws.FirstRevision | app/services/stream_connection_manager.py:175-178 | a new session heeds a first message numbered zero |
| FeedHub.Hub.UnionsExcept | app/services/feed_subscription_manager.py:88-92 | the unions of all sessions, or of all but one |
| FeedHub.Hub.ApplyUnions | app/services/feed_subscription_manager.py:130-163 | what the feed client is asked for |
| FeedHub.Hub.SetClientSubscription | app/services/feed_subscription_manager.py:78-103 | refused over the cap with nothing changed, else replaced |
| FeedHub.Hub.Leave | app/services/stream_connection_manager.py:142-149 | a session and its contribution are removed |
| FeedHub.Hub.Enter | app/services/stream_connection_manager.py:100-140 | a newer connection of an instance replaces the live one, an older or equal one is refused |
| FeedHub.Hub.HandleSubscribe | app/services/stream_connection_manager.py:175-198 | ignored, refused or accepted, and nothing changes unless accepted; a session that was removed meanwhile is still heard by the manager |
| JournalMatcher.MatchRoundTrips | app/services/journal_store.py:843-895 | the loop computes the trades of the segments the fills begin with, stopping at a fill that turns the position round |
| JournalMatcher.Close | app/services/journal_store.py:856-893 | quantity, prices, P&L, charges and allocations of one flat sequence |
| JournalMatcher.SegmentsMatch | app/services/journal_store.py:848-855 | the segments are consecutive round trips that start and end flat and never turn round, and what is left starts with none |
| JournalMatcher.MatchingIsUnique | app/services/journal_store.py:848-855 | there is only one such way to cut the fills up |
| JournalMatcher.GrossIsCashFlow | app/services/journal_store.py:859-867 | a round trip of positive quantities is a trade; a trade exits what it entered and its gross P&L is sell cash less buy cash |
| JournalMatcher.MatchIsStable | app/services/journal_store.py:843-895 | the segments of fills followed by later fills begin with those of the fills |
| JournalLaws.MatchesTell | app/services/journal_store.py:843-895 | every trade reported tells of a run of consecutive fills: its times are those of the first and the last, its quantity half the turnover, its prices times its quantity what was entered and what was exited, its gross P&L the net cash, its charges all charges, its allocations exactly these fills |
| JournalLaws.TradeSpansItsFills | app/services/journal_store.py:856-893 | with fills in the order of time none is outside the trade's span |
| JournalLaws.RoundTripIff | app/services/journal_store.py:848-855 | positive fills are a round trip exactly if the position is on the first fill's side until the last fill and flat after it |
| JournalStore.SessionTripsDisjoint | app/services/journal_store.py:417-423 | the candidates of a session are made of its fills and no two share one |
| JournalDates.FillsAreLinkedOnce | app/services/journal_store.py:425-552 | over every run of fills, notes and rebuilds of any dates in which no linked fill moves to another date, no fill is linked to two trades and a trade has the date of its fills |
| JournalDates.MovesIffLinkedTwice | app/services/journal_store.py:261-271 | that condition is exact: a step moves a linked fill to another date if and only if some continuation without a further move ends with a fill linked to two trades |
| JournalStore.OtherDatesStay | app/services/journal_store.py:434-438 | a rebuild of one date leaves every trade of another date with its links, notes and row, but for the P&L of a trade made of these very fills |
| JournalStore.AnnotatedTradesSurvive | app/services/journal_store.py:445-468 | an annotated trade is never deleted, dated anew or relinked, whatever the fills of any date become, and a review mark stays |
| JournalStore.RebuildIsIdempotent | app/services/journal_store.py:415-552 | a second rebuild of a date on the same fills leaves the whole database and the conflicts as they are |
| JournalStore.EveryTripIsAccountedFor | app/services/journal_store.py:455-460 | after a rebuild every round trip of the date is a trade with its P&L, charges and links unless it shares a fill with an annotated trade of that date now marked for review |
| JournalStore.PriceCorrectionShows | app/services/journal_store.py:527-531 | a trade matched again keeps its first prices while its P&L is updated: they agree exactly when the P&L did not change |
| JournalStore.LaterFillsBringNoConflict | app/services/journal_store.py:415-468 | fills that sort last on their date bring up no conflict that the rebuild before them did not report |
| JournalStore.NewFillIsLater | app/services/journal_store.py:388-397 | a new fill that sorts after those of its instrument on its date is such a fill |
| JournalRows.ConflictsAreOrphans | app/services/journal_store.py:445-468 | a rebuild reports exactly the trades of the date that carry notes and that its fills no longer make |
| JournalRows.RebuildDeletesAndAdds | app/services/journal_store.py:445-551 | it deletes exactly the unannotated trades of the date that the fills no longer make, and adds exactly the round trips that share no fill with a reported trade |
| JournalRows.RebuildMarks | app/services/journal_store.py:445-551 | it marks exactly the reported trades and takes no mark away; what it adds is unmarked and of the date |
| JournalRows.FillsStayInOrder | app/services/journal_store.py:388-397 | over every run the fills stay in the order of time and id |
| JournalRebuild.Journal.UpsertFill | app/services/journal_store.py:248-280 | a new fill is inserted in order, a known one overwritten, its date too |
| JournalRebuild.Journal.GroupByInstrument | app/services/journal_store.py:419-421 | the fills of each instrument in order |
| JournalRebuild.Journal.MatchSession | app/services/journal_store.py:417-423 | the candidates of a session |
| JournalRebuild.Journal.ReviewExisting | app/services/journal_store.py:445-468 | unmatched trades of the date are deleted with their links, or kept, marked and made to block the candidates they share a fill with |
| JournalRebuild.Journal.WriteCandidates | app/services/journal_store.py:470-551 | every candidate not blocked is inserted or updated, and linked |
| JournalRebuild.Journal.RebuildSession | app/services/journal_store.py:415-552 | the row-by-row rebuild of a date comes to the rebuilt database as a whole, and reports its conflicts |
| JournalRebuild.Journal.SaveNotes | app/services/journal_store.py:613-640 | notes only on a trade that exists |
| Broker.Account.PlaceMarketOrder | app/services/position_flattener.py:83-89 | a market order moves the net position at once if it lands, whether or not the call raises |
| MaxLossFlatten.HasExitInFlight | app/services/order_engine_max_loss_watcher.py:156-162 | some leg is EVALUATING, FIRING or PLACED: not every leg there is rests ARMED, FAILED or CANCELLED |
| MaxLossFlatten.ExitLot | app/services/order_engine_max_loss_watcher.py:200-250 | one lot: skipped, sent for the smaller of what remains and what is closeable, or the positions call raised |
| MaxLossFlatten.FlattenOpenLots | app/services/order_engine_max_loss_watcher.py:165-251 | the orders sent, the net positions and the ids returned; it raises if and only if the positions call does at some lot with something remaining and no leg in flight, although the docstring says it never raises |
| MaxLossFlatten.OrderIffNothingElseExits | app/services/order_engine_max_loss_watcher.py:200-243 | a lot gets an order exactly when it has something left, something is held its way and every leg there is is ARMED, FAILED or CANCELLED; the order is against the lot, for all that remains or all that is held, whichever is less; its id is returned exactly when the placement was accepted |
| MaxLossFlatten.FailsIff | app/services/order_engine_max_loss_watcher.py:207-213 | the call ends early exactly at a lot with something left, all legs at rest, and a positions call that raises |
| MaxLossFlatten.NeverThroughZero | app/services/order_engine_max_loss_watcher.py:213-216 | the flatten's own orders push no net position through zero and make none larger, whatever lands or is rejected and however lots are mixed |
| FlattenRace.AloneIsFlatten | app/services/order_engine_max_loss_watcher.py:165-251 | the flatten among orders of others is the flatten by itself when there are none |
| FlattenRace.FlattenClosesIff | app/services/order_engine_max_loss_watcher.py:213-243 | whatever others trade before and during it, no order of a flatten goes through zero if and only if none is overtaken: between the positions read and the order's landing others took off more than its quantity left over |
| FlattenRace.ThroughZeroNeedsALeg | app/services/order_engine_order_service.py:108-123 | and that takes an order of the same instrument on the exit side landing in between |
| FlattenRace.LegInBetweenTurnsRound | app/services/order_engine_max_loss_watcher.py:140-162 | a lot's own leg that fires for all of it right then turns the position round |
| FlattenRace.OwnLegCanLandIffArmed | app/services/order_engine_max_loss_watcher.py:140-162 | flatten and firing protocol together: after a turn found no leg of its lot in flight, an exit of a leg can still land before the turn's own order if and only if that leg was ARMED |
| FlattenRace.SentLegKeepsFlattenOff | app/services/order_engine_max_loss_watcher.py:140-162 | in every run of the firing protocol, a rule whose exit order went out is not ARMED again, and while it is FIRING or PLACED the flatten sends nothing for its lot |
| MaxLossFlatten.OrdersAreExits | app/services/order_engine_max_loss_watcher.py:201-210 | every order exits one lot that had no leg in flight, for at most what remained of it |
| MaxLossFlatten.ClosesWhatIsEligible | app/services/order_engine_max_loss_watcher.py:213-243 | when every order lands a position ends smaller by exactly what its side's eligible lots have left, or flat |
| MaxLossFlatten.EndsFlatIff | app/services/order_engine_order_service.py:108-123 | so an instrument ends flat if and only if the eligible lots on its side cover it |
| MaxLossFlatten.LedgerTruthEndsFlat | app/services/order_engine_max_loss_watcher.py:165-251 | if net is the signed sum of the open remainders, nothing is in flight and nothing fails, every instrument ends flat |
| PositionFlatten.SplitQuantity | app/services/position_flattener.py:154-160 | positive slices of at most the slice size that sum to the quantity |
| PositionFlatten.ClosePosition | app/services/position_flattener.py:80-98 | chunks are sent until one raises; the position only goes toward zero, by what was traded |
| PositionFlatten.AttemptOne | app/services/position_flattener.py:66-107 | one position in one attempt, sliced by its freeze quantity |
| PositionFlatten.Attempt | app/services/position_flattener.py:64-107 | one attempt at every position still open, and which of them failed |
| PositionFlatten.Refresh | app/services/position_flattener.py:117-142 | what is read again, and failures found flat turned into successes |
| PositionFlatten.FlattenPositions | app/services/position_flattener.py:41-151 | across all attempts and slices no position goes through zero, no more is traded than was held, other positions are untouched, every order is for all that is left up to the freeze quantity; success means flat, and a failure that every attempt raised and that it was the third or the positions could not be read again |
| Candles.AlwaysWellFormed | app/services/live_candle_builder.py:48-66 | low <= open, close <= high always, given well-formed supplied bars, for any ticks |
| Candles.CandlesAreBars | app/services/live_candle_builder.py:37-66 | whatever the interleaving, the candles of an instrument are the bars of its own price ticks: first, highest, lowest, last |
| Candles.BarsArePerMinute | app/services/live_candle_builder.py:40-46 | with times that do not go back there is one bar per minute, of exactly that minute's ticks |
| Candles.HighestIsHighest | app/services/live_candle_builder.py:52-53 | high and low are the extremes of the ticks and attained |
| CandleLaws.BarIsOfItsTicks | app/services/live_candle_builder.py:37-66 | a bar opens with the first tick's price or the open sent along with it, closes with the last price, holds every price and bar sent along, and its ends are those of one of them |
| CandleLaws.VolumeIsLargestSent | app/services/live_candle_builder.py:54-56 | its volume is the largest sent along |
| CandleLaws.IndexCandlesAreBarsSent | app/services/live_candle_builder.py:37-38 | an instrument whose ticks lack a price or a trade time has the bars sent along as its candles, the last of each time |
| Candles.LiveCandleBuilder.HandleTick | app/services/live_candle_builder.py:101-113 | the previous candle is reported exactly when the minute changes |
| CandleAggregation.AggregateMinuteCandles | app/services/underlying_signals_service.py:911-957 | one bar per bucket that has rows, of its rows in time order, in time order |
| CandleAggregation.AggregateIsUnique | app/services/underlying_signals_service.py:944-957 | rows have only one such aggregate |
| CandleAggregation.CombineRows | app/services/underlying_signals_service.py:946-955 | open of the first, extremes of all, close of the last, volumes added |
| CandleAggregation.MergeCandles | app/services/underlying_signals_service.py:960-968 | per time the candle given last wins, and the result is in time order |
| CandleAggregation.RunsAreLongerBars | app/services/underlying_signals_service.py:940-957 | putting one-minute bars together gives the same opens, highs, lows and closes as bucketing the ticks, for any buckets |
| CandleAggregation.AggregationComposes | app/services/underlying_signals_service.py:911-957 | aggregating the one-minute bars of ticks gives the opens, highs, lows and closes of bucketing the ticks by the interval directly; each volume is the sum over the bucket's minutes, and in all none is lost |
| CandleAggregation.UniformIffDividesHour | app/services/underlying_signals_service.py:940-941 | every bucket is a whole interval long if and only if the interval divides the hour |
| CandleLaws.BucketsBeginOnTheIndianClock | app/services/underlying_signals_service.py:940-941 | a bucket starts at the last whole minute that is a multiple of the interval past the full hour in India |
| CandleLaws.LatestIsLast | app/services/underlying_signals_service.py:960-968 | what a merge keeps of a time is the candle given last |
| Placement.OrderService.FindExistingOrder | app/services/order_engine_order_service.py:64-79 | the first order of the book with the key's tag |
| Placement.OrderService.PlaceOrder | app/services/order_engine_order_service.py:170-227 | guard, look-up, then placement, with every way each can end, raising positions and order-book calls included |
| Placement.AtMostOneOrderPerKey | app/services/order_engine_order_service.py:184-190 | for any sequence of calls and retries the book never gets a second order of a key |
| Placement.OrdersAreOfCalls | app/services/order_engine_order_service.py:216-226 | whatever the calls, the book stays and every order added has the instrument, side and quantity of one of them, under its tag |
| Placement.AddsIff | app/services/order_engine_order_service.py:184-226 | a call adds its order exactly when it passes the guard, the book can be read and holds none of its tag, and the placement is not rejected; the reply names that order |
| Placement.GuardKeepsFromShort | app/services/order_engine_order_service.py:203-210 | a guarded SELL is refused exactly when it would leave the position short, and none that lands does |
| Placement.UndisturbedCallsAreWhole | app/services/order_engine_order_service.py:212-226 | a look-up and a send with nobody in between are one call |
| Placement.RetriesFindTheOrder | app/services/order_engine_order_service.py:212-214 | once an order of a key is in the book every later call that gets that far is answered with it |
| Placement.OtherKeysDoNotMatter | app/services/order_engine_order_service.py:71-78 | the orders of a tag are what its own calls alone make of them |
| Placement.KeysAreApartIffTagsDiffer | app/services/order_engine_order_service.py:18-23 | two keys keep out of each other's way if and only if their tags differ |
| Placement.OncePerTagIffNotOvertaken | app/services/order_engine_order_service.py:212-226 | with overlapping calls a step keeps one order per tag if and only if no other order of the tag landed since its look-up |
| Placement.OverlapPlacesTwice | app/services/order_engine_order_service.py:212-226 | two calls for one key that both look up before either sends place two orders |
| Sizing.AffordableIsLargest | app/services/quantity_sizing.py:39-68 | the affordable quantity is whole lots, and any number of lots is affordable exactly when no more than that |
| Sizing.RiskSizeIsLargest | app/services/quantity_sizing.py:71-108 | risk sizing gives the largest number of lots within the risk budget and the capital allotment, but never less than one |
| Sizing.FlagsMean | app/services/quantity_sizing.py:86-102 | one flag says one lot already exceeds the budget, the other that capital affords fewer lots than the budget allows |
| Sizing.DefaultQuantityIsSound | app/services/quantity_sizing.py:269-377 | with nothing held every mode that does not raise gives at least one whole lot; in the risk-style modes anything above one is within both budgets and one more would not be |
| Sizing.CapitalBasedIsLargest | app/services/quantity_sizing.py:303-313 | capital sizing gives the most lots the allotment pays for, or one |
| Sizing.KellyBudgetIsModest | app/services/quantity_sizing.py:253-254 | Kelly's budget is between zero and a quarter of its capital |
| Sizing.RaisesIff | app/services/quantity_sizing.py:251-252 | the only mode that can raise is Kelly, exactly when its other inputs are there and the average win is missing or zero |
| SizingLaws.AffordableKeepsReserves | app/services/quantity_sizing.py:55-68 | the affordable quantity is the most whole lots whose price keeps buffer and charges back from the percentage of the capital |
| SizingLaws.SizeKeepsBudgetAndReserves | app/services/quantity_sizing.py:71-108 | in every risk-style mode, being stopped out of more than one lot costs no more than the budget and paying for it keeps the reserves; with one lot more either fails |
| SizingLaws.DistanceIsLostAtTheStop | app/services/quantity_sizing.py:129-131 | the distance is what one unit loses at a stop so many percent, or so many points, below the entry |
| SizingLaws.DistanceOfMoves | app/services/quantity_sizing.py:166-227 | or what the contract moves with its underlying's range, or a day's share of a year's move |
| SizingLaws.KellyIsHalfTheEdge | app/services/quantity_sizing.py:251-254 | Kelly's share is half of the expected P&L of a trade per unit won, none without an edge, at most a quarter |
| SizingLaws.KellyIsCutOff | app/services/quantity_sizing.py:250-254 | the same for any average win but zero |
| SizingLaws.HeldIsOffered | app/services/quantity_sizing.py:293-300 | an open position is offered whole in every mode |
| SizingLaws.FixedIsLots | app/services/quantity_sizing.py:376-377 | the fixed mode gives so many lots |
| SizingLaws.OneLotWithoutInputs | app/services/quantity_sizing.py:240-249 | Kelly without history, and every other mode without an entry price, gives one lot |

## Left out

- HTTP, WebSocket framing, FCM, OAuth and TOTP, encryption, protobuf decoding, SQLite plumbing and migrations, schedulers: I/O or libraries.
- `PUT /ledger/trigger-rules` on an existing id, and `reset_all`: the upsert rewrites the state without bumping the version, which defeats every version-based guarantee.
- `list_orders` and `list_order_history`: paging and filtering of reads.
- `total_live_pnl`, `per_lot_live_pnl` and the quote fallback of the max-loss watcher: sums over lots of a P&L that is modelled, and I/O.
- The max-loss breach test and its re-arm: breach is not monotone in equity and re-arming counts realized P&L twice, so no safety law holds of them.
- Screen shaping, search, caches, signal strings, notification and token stores, tick-size and tag strings: presentational.
- `replace_full_subscription`, `subscribe_ltpc` and `unsubscribe` of the feed client: older entry points beside `replace_subscriptions`, which alone keeps the three mode sets disjoint.
- The order of keys inside one subscription message, and of fills inside a fingerprint: modelled as sets.
- Deletion of lots, fills and trades by hand, and manual journal trades.
- JournalRebuild.Journal.WriteCandidates: does not merge a candidate into a manual trade (`_same_trade`), because a merged row keeps its own id while later rebuilds link under the fingerprint, so idempotence does not extend to it.
- JournalRebuild.Journal.RebuildSession: likewise without manual trades; every date and any run of fills is covered.
- FeedCoverage.SocketServesSessions: a change of what is wanted and the start of its replacement are one step, taken when the manager's lock is free; a session's own record of its request is written at the end of the replacement in the code.
- `cancel_order` and `modify_order_quantity`: a look-up and one broker call each.
- Trailing stops: the evaluator does not apply them, and a trailing gap is only carried along on the lot.
- Connecting a session while its predecessor is still being closed: `connect`, `disconnect` and `subscribe` are atomic here, as they are apart from the `await` of the socket's close and of the subscription manager's lock.
- FeedRecovery.EscalationNeedsSlowPasses: says when escalation cannot happen, not that a stuck key is eventually healed, because each nudge refreshes the timestamp the next decision looks at.
- PositionFlatten.FlattenPositions: one position per instrument key; two products of one instrument would share a key in the result, and an error while reading freeze rules other than a configuration error ends the call.
- PositionFlatten.SplitQuantity: integer quantities only, since a fractional position truncates to a zero-quantity order.
- Accounting.AccountingIdentity: entries before exits without over-exit; for every other run `BalancedIffNoDrift` says exactly when it still holds.
- Candles.CandlesAreBars: instruments whose ticks all carry a price and a trade time; `IndexCandlesAreBarsSent` is for those whose ticks never do, and for a mixture only `AlwaysWellFormed` and the step by step behaviour are claimed.
- Sizing.DefaultQuantityIsSound: the square root of 1/365 is a parameter.
