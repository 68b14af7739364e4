# Proofs about a Discord game bot

The bot keeps players' items, trips, parties and experience. Most of its files are tables, messages and database
queries; this project models the parts that compute or coordinate something and proves what they guarantee over every
input, every interleaving and every run. Each source file has its own module, and two modules may share one file:
the value model with its theorems, and the class whose methods update the state in place and are proved to take
exactly the modelled steps.

| module | what it models |
|---|---|
| `Banks`, `Text` | item banks as multisets; JavaScript's `split`, `join`, `trim`, and the grammar of `Number(s)` |
| `MinionActivities`, `ActivityStore` | the life of a trip: the activity table, the busy cache, the busy counter and the ticker, with the steps between any two awaits of start, cancel, starting over, tick, finish and process restart interleaving freely |
| `PartyLobbies`, `PartyHall` | party lobbies over one shared lock set, with join, leave, cancel, start, time-out and delayed continuations interleaving freely |
| `GearEquip` | equipping a list of items at once |
| `SpecialRemove` | paying a cost out of bank, purse, worn ammo and blowpipe together |
| `WildernessDeath` | which worn items a wilderness death takes |
| `Pieces`, `LootReplace`, `Wintertodt` | handing set pieces to the kind owned least |
| `SplitMessage` | packing a long text into messages of bounded length |
| `ItemStrings` | parsing item lists and reading back a printed bank |
| `UsageTemplate` | the Last Man Standing message templates |
| `XpLedger`, `Levels` | the experience ledger, its announcements, and the level table |
| `SlayerPoints` | slayer points of a streak |
| `CollectionLog` | noticing completed collection logs |
| `WildernessPeaks` | the day's wilderness peaks |

## What the proofs bring out

- Starting and cancelling each wait for the database between looking at the busy cache and changing it. Storing a
  trip keeps the cache right exactly when the owner is among the users and none of them is busy, about to be, or being
  cancelled: the source checks only the owner, and only before it waits. Two starts asked for while everybody was idle
  can put a guest on two trips; of two such starts by one user the unique index refuses the second while the first is
  open.
- Deleting a cancelled user's rows keeps the cache right exactly when the user is idle, already being cancelled, or on a
  trip of their own that no tick holds and that has entered the cache. The user's own cancel checks for shared trips
  before it waits for a confirmation, and the moderators' cancel does not check at all; its later cache clean-up finds
  the entry already gone, so the other members of a shared trip stay busy. A start that gets in between the two halves
  of a cancel leaves its owner idle in the cache with an open trip, refused every further start.
- A trip is never run twice. A batch is lost for good exactly when the process dies after it is marked completed and
  before it is run, or when the marking is written and reported as failed. A cancelled trip is still run exactly when
  a tick had already selected it.
- A user who starts over as an ironman with an open trip stays busy with it although its row is gone.
- A restart repairs the cache exactly when the open trips share no user.
- Ending a lobby keeps the locks right exactly when its leader is not a guest elsewhere; the periodic clearing of the
  locks exactly when nobody is locked. An ended lobby whose members cannot be fetched never settles, unless it was
  cancelled. A lobby with `maxSize` below 2 still admits one joiner; no caller in the repository passes one.
- `filterLootReplace` drops Dark totem middles and tops that are in the loot: sizes agree exactly when there are none.
  A collection log lacking only charged black masks is completed without being announced, because the report of
  added items has the plain mask in its place.
- `specialRemoveItems` never compares the loaded dart with the one asked for: what leaves the player is the recorded
  cost and the scales exactly when no dart is charged or the two are the same. It writes bank and gear one after the
  other, so an error can leave the bank charged and the gear not; of two overlapping payments out of the same worn ammo
  only the later one counts.
- A gain that crosses several experience milestones announces only the lowest; the higher ones are never announced. Of
  two gains that read the same total the one written first is lost, though its ledger row stays.
- A template tag without its closing brace swallows the next character.
- `splitMessage` drops an empty chunk that would start a message, with its separator: the messages rejoin to the text
  exactly when there is no such chunk.

## Model

| member | source | states |
|---|---|---|
| MinionActivities.AtMostOnce | src/lib/tickers.ts:118-142 | after any number of any steps in any order, every trip was run at most once and every user's busy counter is 0 or 1 |
| MinionActivities.StepSound | src/lib/tickers.ts:373-388 | every step, between any two awaits, keeps: rows under their ids, one open row per owner, a held batch distinct in id and owner, nothing run that is open, marked batches closed and not yet run, counters equal to the batch being run |
| MinionActivities.StepsSound | src/lib/Task.ts:168-198 | the same over every run from any such state |
| MinionActivities.AlwaysSound | src/lib/tickers.ts:118-142 | the same over every run from the empty state |
| MinionActivities.StepLosesNothing | src/lib/tickers.ts:130-141 | after a step every completed trip was run or is in the batch just marked, if and only if the step neither restarts the process with a marked batch not yet run nor reports as failed a marking that was written |
| MinionActivities.StepsLoseNothing | src/lib/tickers.ts:118-142 | so it is over every run without such a step |
| MinionActivities.ExactlyOnce | src/lib/tickers.ts:118-142 | from the empty state, in every run without such a step, a row is completed if and only if its trip was run exactly once or is in the batch just marked |
| MinionActivities.DroppedIsLost | src/lib/tickers.ts:130-141 | every stored trip of a batch dropped by such a step ends completed, not run and held by no tick |
| MinionActivities.LostForever | src/lib/tickers.ts:119-128 | such a trip is never run, and its row stays completed if and only if its owner does not start over, whatever else happens next |
| MinionActivities.OutForever | src/lib/tickers.ts:119-141 | a trip that was not run, is not open and is held by no tick is never run |
| MinionActivities.CancelledRunsIff | src/lib/tickers.ts:130-141 | a trip whose row a cancel deletes is still run in some continuation if and only if a tick has already selected it |
| MinionActivities.CancelledIsRun | src/lib/tickers.ts:119-141 | a run in which that happens |
| MinionActivities.DroppedByRestart | src/lib/tickers.ts:130-141 | a run that loses a trip because the process dies after marking |
| MinionActivities.DroppedByFailure | src/lib/tickers.ts:130-139 | a run that loses a trip because its marking is written and reported as failed |
| MinionActivities.SelectedIsDue | src/lib/tickers.ts:119-128 | a tick selects a trip if and only if its row is uncompleted and, in production, past its finish date |
| MinionActivities.AskedIsStored | src/lib/util/addSubTaskToActivityTask.ts:11-54 | a start asked for by an idle user with no open row is stored with its owner, group and finish date, uncompleted, and nothing else in the table changes |
| MinionActivities.RefusedChangesNothing | src/lib/util/addSubTaskToActivityTask.ts:11-26 | a start of a busy user or of negative duration changes nothing |
| MinionActivities.RefusedIsOver | src/lib/util/addSubTaskToActivityTask.ts:41-60 | a start the unique index refuses is over and changes nothing else |
| MinionActivities.StoredIsSelectedIff | src/lib/tickers.ts:119-128 | a stored trip is selected in production exactly at times past its start and whole duration, elsewhere at any time |
| MinionActivities.SelectedIsRun | src/lib/tickers.ts:130-141 | a trip selected while the cache is right is, once marked, run and finished, run once, its row completed, its users and nobody else freed, the owner's counter 1 while it runs and 0 after |
| MinionActivities.CreateAgrees | src/lib/util/addSubTaskToActivityTask.ts:41-54 | storing a trip keeps the busy cache equal to the open and held trips, up to starts and cancels under way, if and only if the owner is listed and no listed user is busy, about to be, or being cancelled |
| MinionActivities.EnterAgrees | src/lib/util/addSubTaskToActivityTask.ts:55 | entering a stored trip into the cache keeps it: exactly the trip's users become busy |
| MinionActivities.EntryFailsAgrees | src/lib/util/addSubTaskToActivityTask.ts:57-60 | a start reported as failed keeps it if and only if no row was stored |
| MinionActivities.CancelAgrees | src/lib/settings/settings.ts:64 | deleting a user's rows keeps it if and only if the user is on no trip yet to enter the cache, and is idle, already being cancelled, or on an unshared trip that no tick holds |
| MinionActivities.CancelEnds | src/lib/settings/settings.ts:65 | ending a cancel whenever the agreement held before keeps it: the user is freed and nobody else |
| MinionActivities.CancelFailsAgrees | src/lib/settings/settings.ts:64-65 | a cancel reported as failed keeps it if and only if the user is not in the cache, was not being cancelled, or has another cancel under way |
| MinionActivities.WipeAgrees | src/mahoji/lib/abstracted_commands/ironmanCommand.ts:126 | a user starting over, which deletes all their rows, keeps it if and only if they own no open trip |
| MinionActivities.FinishAgrees | src/lib/Task.ts:188-197 | completing a trip keeps it, freeing exactly the trip's users, if and only if the trip had entered the cache |
| MinionActivities.TickAgrees | src/lib/tickers.ts:118-142 | selecting, marking, failing to mark without having written, and entering the runs keep it |
| MinionActivities.RestartForgets | src/lib/Task.ts:168-175 | after a restart no start, cancel or tick is under way and nobody is counted as busy; the table stays |
| MinionActivities.RestartAgrees | src/lib/Task.ts:168-175 | refilling the cache from the table restores it, whatever it was before, if and only if open trips share no user and list their owners |
| MinionActivities.RefillHolds | src/lib/Task.ts:168-175 | the order in which the rows come back does not matter when no user is shared |
| MinionActivities.StepAgrees | src/lib/settings/settings.ts:53-66 | any step between two awaits keeps the cache right if and only if it is clean in the senses above |
| MinionActivities.StepsAgree | src/lib/settings/settings.ts:53-66 | so a run of clean steps from any such state keeps it |
| MinionActivities.BusyCacheIsRight | src/lib/settings/settings.ts:193-200 | from the empty state, after every run of clean steps, a user whose start or cancel is not under way maps to a trip if and only if that trip is open or held and lists the user |
| MinionActivities.NobodyOnTwoTrips | src/lib/settings/settings.ts:48-51 | while the cache is right nobody is on two open or held trips |
| MinionActivities.IdleUsersOwnNoOpenRow | src/lib/util/addSubTaskToActivityTask.ts:11-16 | while the cache is right a user it calls idle, with no stored trip yet to enter it, owns no open row |
| MinionActivities.AskedIsRefusedIff | src/lib/util/addSubTaskToActivityTask.ts:11-54 | and a start asked for earlier is refused by the unique index if and only if its owner has by then an open trip of their own, in the cache or yet to enter it |
| MinionActivities.CancelRace | src/lib/settings/settings.ts:63-66 | a run in which a start between the two halves of a cancel leaves its owner idle in the cache, on an open trip, with every further start refused |
| MinionActivities.SharedCancelStrands | src/mahoji/commands/admin.ts:604-610 | a run in which a cancelled shared trip leaves its guest busy with nothing |
| MinionActivities.BusyMemberTaken | src/lib/util/addSubTaskToActivityTask.ts:11-16 | a run in which a start puts a busy member on a second trip |
| MinionActivities.StartsOverlap | src/lib/util/addSubTaskToActivityTask.ts:11-55 | a run in which two starts asked for while everybody was idle put a guest on two trips |
| MinionActivities.SecondAskRefused | src/lib/util/addSubTaskToActivityTask.ts:11-54 | a run of clean steps in which the index refuses the second of two starts its owner asked for while idle |
| MinionActivities.CancelledBeforeEntry | src/lib/util/addSubTaskToActivityTask.ts:42-55 | a run in which a trip cancelled before it enters the cache leaves its owner busy with nothing |
| MinionActivities.FinishedBeforeEntry | src/lib/util/addSubTaskToActivityTask.ts:42-55 | a run in which a trip finished before it enters the cache leaves its owner busy with nothing |
| MinionActivities.WipedWhileBusy | src/mahoji/lib/abstracted_commands/ironmanCommand.ts:14-126 | a run in which a user starting over stays busy with a trip that is gone |
| ActivityStore.Store.AddSubTask | src/lib/util/addSubTaskToActivityTask.ts:11-28 | performs the ask step; refused exactly for a busy owner, then for a negative duration, with nothing changed; else exactly the request asked for is recorded |
| ActivityStore.Store.CreateActivity | src/lib/util/addSubTaskToActivityTask.ts:42-54 | performs the create step; the row is stored exactly when the owner has no open row |
| ActivityStore.Store.EnterActivity | src/lib/util/addSubTaskToActivityTask.ts:55 | performs the enter step |
| ActivityStore.Store.ActivitySync | src/lib/settings/settings.ts:193-200 | every user of the trip, and nobody else, is mapped to it |
| ActivityStore.Store.MinionActivityCacheDelete | src/lib/settings/settings.ts:53-61 | every user of the cached trip, and nobody else, is removed |
| ActivityStore.Store.SyncActivityCache | src/lib/Task.ts:168-175 | the loop over the open rows performs the restart step |
| ActivityStore.Store.MarkCompleted | src/lib/tickers.ts:130-139 | the rows found, and no others, are marked completed |
| ActivityStore.Store.ModifyBusyCounter | src/lib/busyCounterCache.ts:1-17 | the user's counter moves by the amount, an absent counter being 0 |
| ActivityStore.Store.CompleteActivities | src/lib/Task.ts:177-191 | in every sound state the loop performs the run step: each trip of the batch raises its owner's counter and is run once |
| ActivityStore.Store.ReleaseActivity | src/lib/Task.ts:194-197 | the finally block performs the finish step |
| PartyLobbies.StepSound | src/lib/party.ts:134-233 | every step keeps every lobby's list free of duplicates, led by its leader and within capacity, and its flags and promise consistent |
| PartyLobbies.OutcomeIsFinal | src/lib/party.ts:134-145 | over any run a settled promise keeps its outcome |
| PartyLobbies.PartyIsSound | src/lib/party.ts:134-233 | in every interleaving a party resolves only with minSize to capacity distinct members, leader first, and never after a cancel |
| PartyLobbies.DoneLobbySettlesIff | src/lib/party.ts:134-145 | an ended lobby with nothing left to happen has settled its promise if and only if its members could be fetched or it was cancelled |
| PartyLobbies.DoneOutcome | src/lib/party.ts:134-145 | in every run a lobby with nothing left to happen is rejected if and only if it was cancelled or has fewer than minSize members, resolved with its members if and only if neither and they could be fetched, and else pending |
| PartyLobbies.PartyResolves | src/lib/party.ts:134-180 | a run that resolves with the leader and a guest, for any options for two or more and any guest |
| PartyLobbies.StuckForever | src/lib/party.ts:144 | otherwise it never settles, whatever happens next |
| PartyLobbies.FetchFailureSticks | src/lib/party.ts:134-145 | a run in which that happens to a lobby for two or more, for any options and any guest |
| PartyLobbies.NeverOverfullIff | src/lib/party.ts:168-179 | a lobby open to all holds at most maxSize members in every run if and only if maxSize is at least 2 |
| PartyLobbies.EndAgrees | src/lib/party.ts:226-231 | ending keeps "locked exactly when a guest of one open lobby" if and only if the leader is not locked |
| PartyLobbies.ClearAgrees | src/lib/party.ts:22 | clearing the locks keeps it if and only if nobody is locked |
| PartyLobbies.StepAgrees | src/lib/party.ts:147-233 | any step keeps it if and only if it is neither of those two faults: no clearing while anybody is locked, and no last join, leader's cancel or start, or time-out that stops a lobby whose leader is locked |
| PartyLobbies.StepsAgree | src/lib/party.ts:147-233 | so every run of such steps from any such state keeps it |
| PartyLobbies.LocksAreRight | src/lib/party.ts:21-22 | from the empty state, after every run of such steps a user is locked if and only if a guest of an open lobby, and a guest of at most one |
| PartyLobbies.DisciplinedRunsAreRight | src/lib/party.ts:156-224 | from the empty state, leaders who join no other lobby, guests who open none, and no clearing suffice |
| PartyLobbies.ClearedGuestJoinsTwice | src/lib/party.ts:22 | a run in which clearing the locks lets a guest into a second lobby |
| PartyLobbies.LeaderUnlocked | src/lib/party.ts:226-231 | a run in which a guest's own lobby ending unlocks them elsewhere |
| PartyHall.Hall.RemoveUser | src/lib/party.ts:70-77 | the first occurrence is spliced out |
| PartyHall.Hall.OnJoin | src/lib/party.ts:157-180 | joining performs the join step, and succeeds exactly when allowed |
| PartyHall.Hall.OnLeave | src/lib/party.ts:182-194 | leaving performs the leave step, and succeeds exactly for a joined non-leader |
| PartyHall.Hall.OnCancel | src/lib/party.ts:196-208 | the cancel button performs the cancel step |
| PartyHall.Hall.OnStart | src/lib/party.ts:210-219 | the start button performs the start step |
| PartyHall.Hall.OnEnd | src/lib/party.ts:226-233 | exactly the members are unlocked and the delayed start scheduled |
| PartyHall.Hall.ContinueTrip | src/lib/party.ts:138-144 | the rest of the start rejects a party too small and not cancelled, and otherwise fixes the members to resolve with |
| PartyHall.Hall.OnFetched | src/lib/party.ts:144 | resolving performs the settle step |
| GearEquip.Choose | src/lib/util/equipMulti.ts:21-50 | an item is chosen exactly when it qualifies and conflicts with no earlier chosen one; the equip and skill-fail banks record the choices |
| GearEquip.ChoiceIsUnique | src/lib/util/equipMulti.ts:25-50 | that description determines the choice |
| GearEquip.PickedConflictFree | src/lib/util/equipMulti.ts:37-48 | no two chosen items share a slot or pair a two-hander with a weapon or shield |
| GearEquip.PickedFromBank | src/lib/util/equipMulti.ts:26-27 | what is put on is a sub-bank of the user's bank, provided one id names one item |
| GearEquip.Apply | src/lib/util/equipMulti.ts:52-77 | the second loop puts the items on one by one with their cascades |
| GearEquip.PutOnAllMeaning | src/lib/util/equipMulti.ts:56-77 | for conflict-free items the result is order-free: old gear less the displaced slots plus the items, and exactly the displaced items in the unequip bank |
| GearEquip.Confluence | src/lib/util/equipMulti.ts:56-77 | any two orders of the chosen items give the same gear and unequip bank |
| GearEquip.PutOnAllConserves | src/lib/util/equipMulti.ts:56-77 | gear and unequip bank together grow by exactly the items put on, conflict-free or not |
| GearEquip.HandsStayAgreed | src/lib/util/equipMulti.ts:58-72 | a two-hander never comes to stand beside a weapon or shield |
| GearEquip.GearEquipMulti | src/lib/util/equipMulti.ts:8-85 | the whole command, in terms of the request: an item is chosen if and only if the user has enough of it, is skilled for it, can wear it, and no earlier chosen item is in its way; each chosen one fills its slot and the equip bank in the quantity asked for; slots no chosen item clashes with stay as they were; skill failures are reported in the quantity asked for; and old gear + equip bank = new gear + unequip bank |
| SpecialRemove.DetermineRunes | src/lib/util/determineRunes.ts:24-41 | the loop over staves clears exactly the specified runes |
| SpecialRemove.UnsuppliedAt | src/lib/util/determineRunes.ts:33-39 | a rune costs nothing exactly when some worn weapon or shield supplies it; the rest is unchanged |
| SpecialRemove.SplitRequest | src/lib/MUser.ts:435-450 | refuses exactly the requests naming two kinds of dart; otherwise the first dart and first projectile are set apart and the bank pays for everything else |
| SpecialRemove.RollSaves | src/lib/MUser.ts:463-471 | every save comes off both the need and the recorded cost, whatever the rolls |
| SpecialRemove.NeededIsUnsaved | src/lib/MUser.ts:467-495 | with Ava's what is paid is exactly the number of rolls below the quantity that missed, and else all of it |
| SpecialRemove.ScalesFor | src/lib/MUser.ts:496 | the least number of scales that is at least 10/3 of the darts |
| SpecialRemove.PaymentConserves | src/lib/MUser.ts:478-525 | bank, coins, worn ammo, loaded darts and scales together drop by exactly the bill, with nothing negative |
| SpecialRemove.CostIsTheBill | src/lib/MUser.ts:434-528 | the recorded cost is the bill, at most the request, and the whole request without Ava's assembler |
| SpecialRemove.AffordsIff | src/lib/MUser.ts:457-526 | a request can be paid if and only if each item of it is there: the first projectile worn, darts and ten scales for every three of them loaded, the rest in bank and purse |
| SpecialRemove.PaymentCharges | src/lib/MUser.ts:456-529 | a payment takes each item from where it belongs, and records it, by exactly what the rolls did not save, and takes nothing else |
| SpecialRemove.TakesTheCostIff | src/lib/MUser.ts:486-525 | what leaves is the recorded cost and the scales if and only if no dart is charged or the loaded dart is the requested one |
| SpecialRemove.WrongDartIsTaken | src/lib/MUser.ts:486-525 | asked for one kind of dart with another loaded, the loaded one leaves and the asked one is recorded |
| SpecialRemove.HalfPaidIff | src/lib/MUser.ts:523-530 | a payment that passed its checks is left half done if and only if it charges both bank and gear, the bank is written, and the gear is not |
| SpecialRemove.ErrorIsHarmlessIff | src/lib/MUser.ts:523-530 | an unconfirmed write leaves everything as it was if and only if nothing that was written was charged |
| SpecialRemove.HalfPaid | src/lib/MUser.ts:523-530 | a request for which that happens: the item is gone, the worn projectile is not |
| SpecialRemove.LateWriteConservesIff | src/lib/MUser.ts:456-529 | whatever happened since the gear was read, the second write takes exactly its charge if and only if the stores it rewrites still hold what was read |
| SpecialRemove.FirstChargeUndone | src/lib/MUser.ts:456-529 | of two payments that read the same worn ammo only the later is charged for it |
| SpecialRemove.User.TransactRemove | src/lib/util/transactItemsFromBank.ts:45-124 | coins and items are removed exactly when there are enough of both and the write goes through; it fails exactly on too few of either or an unconfirmed write |
| SpecialRemove.User.ChargeAmmo | src/lib/MUser.ts:456-484 | succeeds exactly when the worn ammo is the requested one, not empty, and covers what was not saved |
| SpecialRemove.User.ChargeBlowpipe | src/lib/MUser.ts:486-521 | succeeds exactly when a valid owned blowpipe holds darts and scales enough |
| SpecialRemove.User.PaySplit | src/lib/MUser.ts:456-530 | both writes, each confirmed, failed, or written and reported as failed: untouched unless all three stores can pay, else exactly what was written is charged; it succeeds exactly when all can pay and all is confirmed |
| SpecialRemove.User.SpecialRemoveItems | src/lib/MUser.ts:428-534 | the whole routine, for every outcome of the rolls and of the writes: it succeeds if and only if there is one kind of dart at most, every item is there and all needed writes are confirmed; then each item is charged where it belongs by what was not saved and recorded so, and nothing else is; on success conserving, with cost <= rune-filtered request <= request |
| WildernessDeath.LockedIsLeast | src/lib/util/calculateGearLostOnDeathWilderness.ts:184-191 | a locked item is valued -1 and every other at least 0 |
| WildernessDeath.WorthIs | src/lib/util/calculateGearLostOnDeathWilderness.ts:186-190 | an unlocked item is worth the largest of its price, its cost and its high alch |
| WildernessDeath.ValueIs | src/lib/util/calculateGearLostOnDeathWilderness.ts:178-191 | a swapped item is valued at the sum of what its parts are worth, any other at its own worth |
| WildernessDeath.SortSorts | src/lib/util/calculateGearLostOnDeathWilderness.ts:197 | the ranking is a permutation in descending value |
| WildernessDeath.LoseUnsaved | src/lib/util/calculateGearLostOnDeathWilderness.ts:205-211 | the loop empties exactly the unsaved unlocked slots |
| WildernessDeath.LostIsStretch | src/lib/util/calculateGearLostOnDeathWilderness.ts:206-211 | locked items are never lost and never use a save: exactly max(0, unlocked - saves) slots are lost |
| WildernessDeath.PrefixIsBest | src/lib/util/calculateGearLostOnDeathWilderness.ts:197-211 | no set of unlocked slots of at most that size is worth more than the kept prefix of the ranking |
| WildernessDeath.LostItemsRecordEach | src/lib/util/calculateGearLostOnDeathWilderness.ts:205-211 | the lost bank holds one of each lost slot's item |
| WildernessDeath.CalculateGearLost | src/lib/util/calculateGearLostOnDeathWilderness.ts:160-218 | the whole death: every slot unchanged or emptied, the count of lost slots with 3, 4, 0 or 1 saves by the three flags, optimality of what is kept, nothing lost worth more than an unlocked item kept, and the lost bank |
| WildernessDeath.MoreSavesLoseLess | src/lib/util/calculateGearLostOnDeathWilderness.ts:199-211 | with more saves a subset is lost, smaller by exactly the slots newly protected |
| Pieces.GreedyIsOptimal | src/lib/slayer/slayerUtil.ts:390-406 | giving each piece to the first kind owned least completes at least as many sets as any other way of giving them |
| Pieces.GreedySum | src/lib/slayer/slayerUtil.ts:390-406 | exactly n pieces are given |
| Pieces.GreedyLevels | src/lib/slayer/slayerUtil.ts:396-404 | no kind that was given a piece is two ahead of the least owned |
| Pieces.GreedyStaysLevel | src/lib/slayer/slayerUtil.ts:396-404 | once no two kinds differ by more than one they never do again |
| Pieces.GreedyFromFourZeros | src/lib/simulation/wintertodt.ts:230-237 | from nothing, n pieces go round four kinds in order |
| Pieces.FirstMinimal | src/lib/slayer/slayerUtil.ts:396-404 | the scan stops at the first kind owned least |
| LootReplace.DealPieces | src/lib/slayer/slayerUtil.ts:390-406 | one family's loop adds the same n pieces to loot, log loot and combined bank, as the greedy rule says |
| LootReplace.FilterLootReplace | src/lib/slayer/slayerUtil.ts:354-446 | all three families are dealt greedily from what the player had and kept; bank and log loot differ only in black masks; sizes agree if and only if the loot had no totem middle or top |
| LootReplace.SetsAreMaximal | src/lib/slayer/slayerUtil.ts:388-441 | no other replacement of a family's pieces leaves more complete sets |
| Wintertodt.RollUnique | src/lib/simulation/wintertodt.ts:200-239 | each roll gives its own item; gloves and torches only below three owned, else their seeds; a piece roll gives the first piece owned least |
| Wintertodt.Open | src/lib/simulation/wintertodt.ts:241-259 | a crate deals its pieces greedily; its loot holds every axe, phoenix, tome, piece and material rolled, gloves and torches up to three and their seeds from then on |
| Wintertodt.DealtOverCrates | src/lib/simulation/wintertodt.ts:247-258 | over any number of crates, each seeing what the earlier ones gave, the pieces are dealt as one greedy run |
| Wintertodt.OutfitCounts | src/lib/simulation/wintertodt.ts:226-238 | a player starting bare has (n+3)/4, (n+2)/4, (n+1)/4, n/4 of the four pieces after n piece rolls |
| Wintertodt.OutfitFillsInOrder | src/lib/simulation/wintertodt.ts:227-229 | so garb >= hood >= robe >= boots >= garb - 1, always |
| SplitMessage.SplitMessage | src/lib/util/splitMessage.ts:3-29 | fails exactly when the text and some chunk are too long; else groups of the chunks, joined, non-empty and within the limit, which keep the order and miss exactly the lost chunks |
| SplitMessage.Pack | src/lib/util/splitMessage.ts:19-28 | the packing loop: the groups keep every non-empty chunk in order, the number missed is the number of empty chunks that start a message, no message begins with an empty chunk, every message but the last could not have taken the next chunk, and the number of messages is the least |
| SplitMessage.NeededIsLeast | src/lib/util/splitMessage.ts:21-27 | no grouping of the chunks within the limit has fewer groups |
| SplitMessage.FewestMessages | src/lib/util/splitMessage.ts:3-29 | so no contiguous grouping uses fewer messages |
| SplitMessage.MessagesRejoinIff | src/lib/util/splitMessage.ts:16-28 | joining the messages by the separator gives back the text if and only if no empty chunk came while no message was being built |
| SplitMessage.LeadingSeparatorLost | src/lib/util/splitMessage.ts:21-27 | a text too long for one message that begins with its separator does not rejoin |
| SplitMessage.NothingLost | src/lib/util/splitMessage.ts:16-28 | so it does whenever no chunk is empty |
| Text.JoinSplit | src/lib/util/splitMessage.ts:16 | splitting and joining by the same separator gives back the text |
| Text.SplitJoin | src/lib/util/parseStringBank.ts:59-63 | joining separator-free chunks and splitting gives them back |
| Text.TrimOf | src/lib/util/parseStringBank.ts:14 | trimming takes off exactly the white space on both sides |
| Text.CollapseRun | src/lib/util/parseStringBank.ts:59-62 | a run of white space becomes one space when two or more long, and stays otherwise |
| Text.NumericIff | src/lib/util/parseStringBank.ts:21-41 | a text is a number exactly when the grammar of numerals (section 7.1.4.1.1 of ECMA-262) derives it |
| Text.DecimalIs | src/lib/util/parseStringBank.ts:30 | a printed number reads back as itself and has no superfluous zeros |
| ItemStrings.ParseStringBank | src/lib/util/parseStringBank.ts:58-78 | the two loops collect what the pieces name |
| ItemStrings.ParsedIsFirstMentions | src/lib/util/parseStringBank.ts:66-76 | no id appears twice, every named id appears, and each with the quantity of the first piece naming it; without duplicate items a piece names only its first item |
| ItemStrings.BareIdParses | src/lib/util/parseStringBank.ts:13-56 | a lone number is an item id, in quantity 0, whatever the input bank |
| ItemStrings.BlankNamesNothing | src/lib/util/parseStringBank.ts:14-15 | white space alone names nothing |
| ItemStrings.OneWordIsName | src/lib/util/parseStringBank.ts:26-53 | a single word that is no number is a name |
| ItemStrings.BareNameParses | src/lib/util/parseStringBank.ts:26-53 | a name whose first word has no value is read whole: it names every item matching all of it, in quantity 0, or nothing |
| ItemStrings.ExtraNumberIgnored | src/lib/util/parseStringBank.ts:20-24 | of two numbers before a name the second is ignored, and the input bank with it |
| ItemStrings.EntryParses | src/lib/util/parseStringBank.ts:13-56 | a printed entry parses to the items its name stands for, in the printed quantity, with or without an input bank |
| ItemStrings.WordIsQuantity | src/lib/util/parseStringBank.ts:13-56 | any first word with a value is a quantity, raised to 0 or cut to 10^11 |
| ItemStrings.HashIsBankAmount | src/lib/util/parseStringBank.ts:28-31 | a # asks for as many of the item as the input bank holds |
| ItemStrings.CleanOne | src/lib/util/cleanString.ts:1-3 | a cleaned name keeps digits and plus signs, letters as capitals, and nothing else |
| ItemStrings.CleanTwo | src/lib/util/cleanString.ts:1-3 | and is cleaned character by character |
| ItemStrings.PiecesOfPrinted | src/lib/util/parseStringBank.ts:59-63 | trimming, collapsing and cutting a printed bank gives back its entries |
| ItemStrings.PrintedReadsByName | src/lib/util/globalInteractions.ts:149-153 | for any tables a printed bank reads back as what its names stand for |
| ItemStrings.RoundTrip | src/lib/util/globalInteractions.ts:149-153 | for every unambiguous table and printable names, printing and parsing a bank is the identity |
| UsageTemplate.LastManStandingUsage.Parse | src/lib/structures/LastManStandingUsage.ts:15-49 | the index loop records exactly the template's tokens: its parts, largest contestant, deaths and killers |
| UsageTemplate.Largest | src/lib/structures/LastManStandingUsage.ts:29-30 | contestants is the largest number named, or 0 |
| UsageTemplate.ReadPrinted | src/lib/structures/LastManStandingUsage.ts:15-49 | reading the printed form of canonical tokens gives the tokens back |
| UsageTemplate.PrintRead | src/lib/structures/LastManStandingUsage.ts:15-49 | a well-formed template is the printed form of its tokens |
| UsageTemplate.RoundTrip | src/lib/structures/LastManStandingUsage.ts:15-49 | parsing and printing are inverse between exactly the well-formed templates and the canonical token lists |
| UsageTemplate.UnclosedTagIsLost | src/lib/structures/LastManStandingUsage.ts:32-42 | for every digit, every character but D and K in the brace's place, and every rest, the tokens are those with the brace: the character disappears |
| UsageTemplate.TagReads | src/lib/structures/LastManStandingUsage.ts:26-42 | a digit tags its number, white space 0, any other character no number, in whatever follows |
| UsageTemplate.RecordsFates | src/lib/structures/LastManStandingUsage.ts:34-40 | the object lists contestant n, counted from 0, as dying or killing exactly when the template tags n so |
| UsageTemplate.PrintedDisplays | src/lib/structures/LastManStandingUsage.ts:11-13 | display of a printed template is token-by-token substitution |
| UsageTemplate.DisplayIsSubstitution | src/lib/structures/LastManStandingUsage.ts:11-13 | what a parsed object displays is the substitution of its template's tokens |
| UsageTemplate.EveryTagNamedIff | src/lib/structures/LastManStandingUsage.ts:11-13 | for all tokens, every tag gets a name if and only if there are at least contestants names and every tag is a digit from 1 |
| XpLedger.SkillXP.AddXP | src/lib/addXP.ts:49-136 | one gain on a total that may have changed since it was read: the capped total, its ledger rows, and its announcements |
| XpLedger.SkillXP.AnnounceMilestone | src/lib/addXP.ts:90-104 | the loop announces the lowest milestone crossed and no other |
| XpLedger.RowsBalance | src/lib/addXP.ts:58-87 | a gain's rows sum to the change below the cap and, in all, to the gain's whole part |
| XpLedger.RowsWritten | src/lib/addXP.ts:62-87 | a gain writes one row up to the cap, one for what the cap keeps out, and none for nothing |
| XpLedger.LedgerBalances | src/lib/addXP.ts:58-136 | over any run of non-negative gains the total never falls or passes the cap and the rows account for every whole point |
| XpLedger.GainIsCapped | src/lib/addXP.ts:58 | a gain adds its whole part and stops at 200,000,000 |
| XpLedger.RunIsCapped | src/lib/addXP.ts:58-136 | over any run the total is the start and all whole parts, or 200,000,000 if that is less |
| XpLedger.AnnouncedOnce | src/lib/addXP.ts:90-132 | over any run a milestone is announced at most once, exactly when the gain reaching it started past the milestone before; level 99 exactly once |
| XpLedger.SkippedForever | src/lib/addXP.ts:90-104 | a gain that passes two milestones at once leaves the higher one unannounced in every run that follows |
| XpLedger.OverlapDrifts | src/lib/addXP.ts:49-136 | however gains overlap, the rows exceed the change in the total by exactly what the gains overwrote |
| XpLedger.LateGainBalancesIff | src/lib/addXP.ts:49-136 | a gain's rows account for the change in the total if and only if nothing else changed it since it was read |
| XpLedger.FirstGainLost | src/lib/addXP.ts:49-136 | of two gains that read the same total the one written first is lost, though its row stays |
| Levels.ConvertXPtoLVL | src/lib/util.ts:109-121 | for every experience and cap, the level is in 1..cap and at least L exactly when the experience reaches the table's threshold for L |
| Levels.LevelsGrow | src/lib/util.ts:109-121 | there is one such level, and it grows with experience and cap |
| Levels.ExactTableExists | src/lib/util.ts:113 | there is exactly one table of exact increments k + floor(300 * 2^(k/7)) |
| Levels.Level99Threshold | src/lib/constants.ts:330 | with exact increments level 99 is reached at exactly 13,034,431 experience |
| SlayerPoints.CalculateSlayerPoints | src/lib/slayer/slayerUtil.ts:66-89 | the loop pays the multiple of the largest bonus streak dividing the streak, nothing below 5, on 20 points for Konar's holders of the Kourend elite diary and the master's points otherwise |
| SlayerPoints.MultiplierIs | src/lib/slayer/slayerUtil.ts:83-88 | that description determines the multiple |
| SlayerPoints.TotalClosedForm | src/lib/slayer/slayerUtil.ts:66-89 | the total over streaks 1..n is base times (max(0,n-4) + 4(n/10) + 10(n/50) + 10(n/100) + 20(n/250) - 10(n/500) + 15(n/1000)) |
| CollectionLog.HandleNewCLItems | src/lib/handleNewCLItems.ts:31-60 | announces, once and in order, exactly the counted logs just completed that gained a reported item |
| CollectionLog.MissedExactlyWhen | src/lib/handleNewCLItems.ts:42-53 | a log just completed is missed if and only if none of its newly logged items was reported |
| CollectionLog.NothingMissed | src/lib/handleNewCLItems.ts:42-58 | reporting all that was logged misses nothing |
| CollectionLog.FilteredLootMisses | src/lib/util/transactItemsFromBank.ts:65-73 | behind the loot filter a completed log is missed if and only if charged black masks were all it lacked |
| CollectionLog.MaskCompletesUnseen | src/lib/util/transactItemsFromBank.ts:65-73 | a charged mask completes a log lacking only it, and the report names no item of the log that was new |
| CollectionLog.AnnouncedOnce | src/lib/handleNewCLItems.ts:42-60 | over any run reported in full, a counted log is announced once, when it becomes complete, and never if it was from the start |
| WildernessPeaks.DrawPeaks | src/lib/tickers.ts:171-194 | the eleven draws with their tiers and what is left of the day, the last one low |
| WildernessPeaks.WildernessPeakTimes | src/lib/tickers.ts:170-207 | the shuffled peaks lie end to end from the start time, each keeping its tier |
| WildernessPeaks.ShuffleKeepsSum | src/lib/tickers.ts:196 | no shuffle changes the total length |
| WildernessPeaks.DayIsFilled | src/lib/tickers.ts:176-196 | every length is positive and together they are 24 hours |
| WildernessPeaks.EveryInstantOnce | src/lib/tickers.ts:198-204 | an instant lies in a peak if and only if it is in the next 24 hours, and then in just one |

## Left out

- Messages, buttons, embeds, confirmations, canvases, HTTP and raw SQL: only the steps they trigger are modelled.
- Item, monster, shop and collection tables, prices, skill checks and loot rolls: parameters, arbitrary unless a
  contract says otherwise. `WildernessDeath.Sensible` states what the shipped tables satisfy: swapped items and their
  parts are not locked.
- The random generators: every roll, draw and shuffle is an arbitrary parameter.
- The game library's `Bank`, `Items` and evaluator: a bank is a multiset, the evaluator any function that reads plain
  numerals as themselves, lookup by exact name or by number any function.
- Restart: the busy cache is filled before the bot logs in (src/index.ts:213-224), so forgetting and refilling are one
  step. A start whose row the database never stores stays asked for; nothing depends on it.
- Trips of a type no task handles, which would reject the batch early: taken not to occur. Other users of the busy
  counter than the ticker: the checks around every command (src/mahoji/lib/preCommand.ts:78,
  src/mahoji/lib/postCommand.ts:28) and the moderators' reset (src/mahoji/commands/admin.ts:607).
- The library's button collector: its time and user limits are a nondeterministic end, and a press whose asynchronous
  filter is still running when the collector stops is taken to be dropped.
- Equipped quantity on death is recorded as 1 by the source; slots are counted, and an empty slot is an absent one.
- SpecialRemove.User.PaySplit: nothing else happens between its reads and its writes; what an earlier reading does to
  the second write is SpecialRemove.LateWriteConservesIff. The first write reads the bank again.
- SpecialRemove.User.SpecialRemoveItems: as for PaySplit; the first check of the bank sees the persisted state where the
  source sees an in-memory copy of the user.
- SpecialRemove.ScalesFor: the floating-point 10/3 is exact for every dart quantity that can occur, so the ceiling is
  stated over integers.
- How many rolls a Wintertodt crate has: any number of rolls is covered.
- `splitMessage` with a regular expression, several separators, or text prepended or appended: the length bound is not
  promised there. Text is a sequence of characters, not UTF-16 units.
- XpLedger.SkillXP.AddXP: its own rows, announcements and total are written as one step, after whatever else happened
  since the total was read; the order in which rows of overlapping gains interleave is not modelled.
- addXP takes its level function from a library that is not in the repository; it is modelled by the repository's own
  convertXPtoLVL. Experience amounts are reals, so floating-point rounding is not modelled; `increment` stands for the
  floating-point term of the table.
- The return texts of addXP, total-level and maxing notices; leaderboard places in collection-log notices.
- Levels.Level99Threshold: relies on exact increments, because floating-point powers are not modelled.
- ItemStrings.RoundTrip: asks for names whose first word is not a number, since such a word is dropped by the parser.
- Perk tiers, pagination, and the raid, Nex and trip-time formulas: long branch lists with easy bounds.
