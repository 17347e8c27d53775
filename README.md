# Reward economy of the habit tracker API

This project models the server-side reward economy of a NestJS habit tracker. Users keep habits, dailies and to-dos. Logging or completing them earns gold and makes their pet happier. Gold is spent on rewards, on deleting or re-grading tasks, and on founding or running groups and challenges. Gems buy premium items in the pet shop.

The model covers seven services, one Dafny module each:
- `HabitService`
- `DailyService`
- `TodoService`
- `RewardService`
- `GroupService`
- `ChallengeService`
- `PetService`

Every service works on one shared `Store.Store` object. Each table is a field of that object:
- Tables looked up by key are maps.
- Tables whose order the services read are sequences in insertion order: habit logs, daily logs, messages, participations and inventory rows.

Each service operation is a method:
- It names in `modifies` exactly the tables it writes.
- It returns `Success(value)` or `Failure(error)`, where the error is the HTTP exception the service throws.
- It states the whole new state of every table it may write.

A transactional operation leaves every table unchanged on an error. Prisma rolls the transaction back, so nothing it wrote survives.

The fixed rules live in module `Rules` as pure functions:
- difficulty tiers
- deletion costs and deletion streaks
- the difficulty-change matrix
- habit, daily and to-do points
- the seven-day gold lock

Time is an integer count of milliseconds, `now`, passed to each operation. A calendar day is `now / 86_400_000`.

The module `Scenarios` calls the services on a fresh store, in verified methods. It shows what they allow:
- gold below zero
- a completed to-do paid twice after a reopening edit
- a challenge completion paid twice
- a second habit log on the same day refused
- a group left with no owner

## Model

| member | source | states |
|---|---|---|
| `Rules.ChangeCost` | src/habit/habit.service.ts:26-30 | the change matrix has an entry exactly for downgrades (lower target tier), each between 20 and 250 gold |
| `Rules.EvaluateChange` | src/habit/habit.service.ts:143-167 | a difficulty change fails (always Conflict) exactly for the same tier or an unaffordable downgrade; it is a free upgrade exactly when the target tier is higher; a downgrade costs its matrix entry, which the owner can pay |
| `Rules.LockedReward` | src/daily/daily.service.ts:199-205 | completion gold is the full points or nothing, nothing exactly while the gold lock lies in the future |
| `Rules.UpgradeLockLastsSevenDays` | src/habit/habit.service.ts:152-157 | the lock set by an upgrade at `now` is active exactly before now + 7 days, so it covers every later moment on the next seven calendar days counting today |
| `Store.AdjustGold` | src/habit/habit.service.ts:241-244 | a gold increment changes that user's gold by the amount and no other balance or user |
| `HabitService.Patched` | src/habit/habit.service.ts:119 | a free-form edit never reaches streaks, counters, owner or gold lock, and keeps the difficulty when none is given |
| `HabitService.LatestLogDate` | src/habit/habit.service.ts:193-196 | the date of the habit's most recent log: none exactly when it has no log, otherwise the date of one of its logs and no earlier than any other |
| `HabitService.LatestAfterAppend` | src/habit/habit.service.ts:197-201 | after a log is appended at the latest date, that date is the habit's latest, so a second log that day is refused |
| `HabitService.LatestIgnoresOtherHabits` | src/habit/habit.service.ts:193-196 | a log of another habit leaves this habit's latest log date as it was |
| `HabitService.LogGoldChange` | src/habit/habit.service.ts:210-221 | gold rises exactly on a positive log without an active lock; it falls exactly on a negative log of a NEGATIVE or BOTH habit, lock or no lock; any change is plus or minus the difficulty's points, at most 20 |
| `HabitService.LogHealthChange` | src/habit/habit.service.ts:223-227 | the pet loses 15 health exactly on a negative log of a NEGATIVE or BOTH habit, and otherwise nothing |
| `HabitService.LoggedHabit` | src/habit/habit.service.ts:228-260 | a positive log extends the streak after a log yesterday and restarts it at 1 otherwise, a negative log zeroes it; exactly one counter rises; the longest streak never falls and stays at least the current one; no other field changes |
| `HabitService.Remove` | src/habit/habit.service.ts:71-84 | free deletion succeeds exactly when the current streak reaches the difficulty's deletion streak, otherwise Forbidden with the habit kept |
| `HabitService.PayToDelete` | src/habit/habit.service.ts:86-107 | Conflict with gold and habit untouched when gold is below the deletion cost; otherwise gold drops by exactly that cost and the habit is deleted |
| `HabitService.Update` | src/habit/habit.service.ts:109-120 | a request naming another difficulty is Forbidden; a successful edit keeps the difficulty and touches no balance |
| `HabitService.PayToUpdate` | src/habit/habit.service.ts:122-178 | no difficulty is BadRequest, then NotFound, Forbidden, NotFound for a missing user, Conflict for the same tier or an unaffordable downgrade, nothing written; an upgrade is free and locks gold for seven days; a downgrade debits its matrix cost and clears the lock |
| `HabitService.LogHabit` | src/habit/habit.service.ts:180-268 | a paused habit or a second log on the day of the latest log is a Conflict with nothing written; otherwise gold moves by LogGoldChange with no balance check, happiness rises by 5 only on positive logs, health falls as LogHealthChange says, the habit advances as LoggedHabit says and exactly one log is appended |
| `DailyService.Patched` | src/daily/daily.service.ts:88 | an edit never reaches completion state, owner or gold lock |
| `DailyService.ResetView` | src/daily/daily.service.ts:56-61 | a daily is shown completed exactly when it is stored completed and was last completed today or never; one completed yesterday shows as not completed; no other field differs |
| `DailyService.ShowDailies` | src/daily/daily.service.ts:49-62 | the listing keeps every daily, in order, each shown through ResetView |
| `DailyService.ShowDailiesIdempotent` | src/daily/daily.service.ts:56-61 | showing a shown listing again changes nothing |
| `DailyService.Update` | src/daily/daily.service.ts:78-89 | a request naming another difficulty is Forbidden; an edit keeps the difficulty and touches no balance |
| `DailyService.Remove` | src/daily/daily.service.ts:91-97 | the owner deletes a daily for free, with no balance touched |
| `DailyService.PayToDelete` | src/daily/daily.service.ts:99-119 | Conflict with nothing changed when gold is below the deletion cost; otherwise gold drops by exactly that cost and the daily is deleted |
| `DailyService.PayToUpdate` | src/daily/daily.service.ts:121-174 | the habit rules for upgrades, downgrades and the same tier, except that another user's daily is NotFound rather than Forbidden |
| `DailyService.Complete` | src/daily/daily.service.ts:176-236 | a daily completed earlier today is a Conflict with nothing written; otherwise gold rises by the daily points unless locked, happiness by 5, one log is appended and the daily is marked completed now |
| `DailyService.CompletedTodayStaysCompleted` | src/daily/daily.service.ts:187-191 | a daily completed now shows as completed for the rest of the day, and a repeat that day hits the Conflict guard |
| `TodoService.Patched` | src/todo/todo.service.ts:45-51 | an edit writes the given difficulty and completion flag, which can reopen a to-do, and never changes the owner |
| `TodoService.Update` | src/todo/todo.service.ts:45-51 | the owner's to-do takes the request's fields, with no balance touched |
| `TodoService.Remove` | src/todo/todo.service.ts:53-56 | the owner deletes a to-do for free |
| `TodoService.Complete` | src/todo/todo.service.ts:58-100 | an already completed to-do is a Conflict with nothing written; otherwise gold rises by the to-do points with no lock, happiness by 5, and only `completed` changes on the to-do |
| `TodoService.ReopenedTodoIsCompletable` | src/todo/todo.service.ts:45-66 | an edit setting `completed` to false makes the to-do pass the completion guard again |
| `RewardService.Patched` | src/reward/reward.service.ts:44-50 | an edit writes the given cost and title and never changes the owner |
| `RewardService.Update` | src/reward/reward.service.ts:44-50 | the owner's reward takes the request's fields |
| `RewardService.Remove` | src/reward/reward.service.ts:52-55 | the owner deletes a reward |
| `RewardService.Redeem` | src/reward/reward.service.ts:57-84 | Conflict with gold untouched when gold is below the cost; otherwise gold drops by exactly the cost, the new balance (never negative) is returned, and the reward stays redeemable |
| `GroupService.Patched` | src/group/group.service.ts:85 | an edit writes the given name and visibility |
| `GroupService.CheckPermission` | src/group/group.service.ts:264-284 | success exactly for an ACTIVE membership with an allowed role, Forbidden otherwise |
| `GroupService.SetRole` | src/group/group.service.ts:196-221 | a role update changes that one membership's role and nothing else |
| `GroupService.SetRoleOwners` | src/group/group.service.ts:196-203 | making a user OWNER adds them to the group's owners; any other role removes them |
| `GroupService.RemoveMemberOwners` | src/group/group.service.ts:350 | deleting a membership removes only that user from the owners; deleting a non-owner leaves the owners as they were |
| `GroupService.Create` | src/group/group.service.ts:26-60 | Forbidden below 150 gold, Conflict for a taken name; otherwise gold drops by exactly 150 and the creator becomes an ACTIVE OWNER of the new group |
| `GroupService.CreatedGroupHasSoleOwner` | src/group/group.service.ts:50-57 | a new group has exactly one member, the creator, who is its only owner |
| `GroupService.Update` | src/group/group.service.ts:62-87 | only an ACTIVE OWNER edits, Forbidden below 300 gold, Conflict for another group's name; otherwise gold drops by exactly 300 |
| `GroupService.DeleteGroup` | src/group/group.service.ts:89-106 | only an ACTIVE OWNER deletes, Forbidden below 500 gold; otherwise gold drops by exactly 500 and the group goes |
| `GroupService.JoinGroup` | src/group/group.service.ts:108-128 | Conflict for any existing membership; otherwise a MEMBER row, ACTIVE for a public group and PENDING for a private one |
| `GroupService.LeaveGroup` | src/group/group.service.ts:130-143 | NotFound for a non-member, Forbidden for the OWNER; otherwise only the caller's row goes |
| `GroupService.ApproveRequest` | src/group/group.service.ts:145-164 | an ACTIVE OWNER or ADMIN turns a PENDING row ACTIVE; a missing or non-pending row is NotFound |
| `GroupService.RoleChange` | src/group/group.service.ts:166-227 | succeeds exactly when an ACTIVE OWNER or ADMIN asks, the target is a member and the rule for the new role holds (owner-only transfer, no OWNER target for ADMIN, owner-only demotion of an ADMIN); the target's row takes the requested role and keeps its status; a transfer turns the caller's row into ADMIN; every other row, in this group and in others, is untouched |
| `GroupService.RoleChangeOwners` | src/group/group.service.ts:187-221 | a transfer moves ownership from caller to target; every other change leaves the owners as they were |
| `GroupService.RoleChangeKeepsSoleOwner` | src/group/group.service.ts:190-203 | in a group with exactly one owner, every successful role change leaves exactly one owner |
| `GroupService.ManageMemberRole` | src/group/group.service.ts:172-226 | the memberships change exactly as RoleChange says, in one transaction, or not at all |
| `GroupService.PostMessage` | src/group/group.service.ts:229-246 | only an ACTIVE member posts; exactly one message is appended |
| `GroupService.GroupMessages` | src/group/group.service.ts:257-258 | every message of the group, as often as it is stored, and no other message |
| `GroupService.GetMessages` | src/group/group.service.ts:248-262 | only an ACTIVE member reads; the result is the group's messages, each as often as stored, in ascending creation time |
| `GroupService.KickMember` | src/group/group.service.ts:318-353 | nobody kicks themself or the OWNER and an ADMIN never kicks an ADMIN; otherwise only the target's row goes and the owners are unchanged |
| `GroupService.RejectRequest` | src/group/group.service.ts:354-378 | an ACTIVE OWNER or ADMIN deletes a PENDING row of any role; anything else is Forbidden or NotFound |
| `GroupService.OwnershipCanVanish` | src/group/group.service.ts:196-203 | handing ownership to a PENDING applicant succeeds, and the former owner, now ADMIN, can reject that applicant and leave the group with no owner |
| `Sorting.InsertBy` | src/challenge/challenge.service.ts:320-322 | insertion adds exactly the one element and keeps every other one |
| `Sorting.InsertKeepsSorted` | src/challenge/challenge.service.ts:320-322 | insertion into an ascending sequence keeps it ascending |
| `Sorting.SortBy` | src/group/group.service.ts:259 | an ascending ordering that is a permutation of its input |
| `Sorting.Smallest` | src/challenge/challenge.service.ts:320-323 | the `take` of an ascending ordering: as many rows as the limit allows, sorted, drawn from the input without duplication, and all of it when it fits |
| `Sorting.PrefixKeepsSmallest` | src/challenge/challenge.service.ts:320-323 | a row of a sorted sequence that the cut-off prefix does not hold in full is ranked no earlier than any row of that prefix |
| `Lookup.FindOwned` | src/habit/habit.service.ts:58-69 | the ownership lookup of every service's `findOne` (also src/daily/daily.service.ts:64-76, src/todo/todo.service.ts:32-43, src/reward/reward.service.ts:31-42): NotFound exactly for a missing row, Forbidden exactly for another user's, otherwise the stored row |
| `Lookup.FilterCount` | src/challenge/challenge.service.ts:315-319 | a `where` filter: every qualifying row as often as it is stored, and no other row |
| `Lookup.FilterAppend` | src/challenge/challenge.service.ts:315-319 | filtering a concatenation is the concatenation of the filtered parts, so the selected rows keep their stored order |
| `Lookup.FirstIndex` | src/challenge/challenge.service.ts:123-125 | the first row satisfying the condition, or -1 exactly when there is none |
| `Lookup.RemoveAt` | src/challenge/challenge.service.ts:240-242 | deleting a row keeps the others in order |
| `ChallengeService.IndexOf` | src/challenge/challenge.service.ts:146-149 | the position of a row with the id, or -1 exactly when there is none |
| `ChallengeService.Create` | src/challenge/challenge.service.ts:18-54 | Forbidden below 150 gold; otherwise gold drops by exactly 150, the challenge is stored, and the creator is enrolled ACTIVE; keeps one row per user and challenge |
| `ChallengeService.DeleteChallenge` | src/challenge/challenge.service.ts:56-75 | only the creator deletes; NotFound for a missing challenge |
| `ChallengeService.JoinChallenge` | src/challenge/challenge.service.ts:113-143 | Conflict for an existing row; otherwise one row, PENDING for a private challenge and ACTIVE otherwise; keeps one row per user and challenge |
| `ChallengeService.AppendKeepsOneRowPerUser` | src/challenge/challenge.service.ts:123-142 | appending a row for a user with no row in that challenge keeps one row per user and challenge |
| `ChallengeService.ReplaceKeepsOneRowPerUser` | src/challenge/challenge.service.ts:163-166 | rewriting a row in place, with its user and challenge kept, keeps one row per user and challenge |
| `ChallengeService.RemoveKeepsOneRowPerUser` | src/challenge/challenge.service.ts:240-242 | deleting a row keeps one row per user and challenge |
| `ChallengeService.ApproveRequest` | src/challenge/challenge.service.ts:145-167 | only the creator approves, only a PENDING row (else Conflict), which becomes ACTIVE |
| `ChallengeService.RejectRequest` | src/challenge/challenge.service.ts:169-186 | only the creator rejects, and the row is deleted whatever its status |
| `ChallengeService.UpdateProgress` | src/challenge/challenge.service.ts:198-222 | only the row's user updates, and only the progress changes |
| `ChallengeService.LeaveChallenge` | src/challenge/challenge.service.ts:224-243 | only the row's user leaves, and only that row goes |
| `ChallengeService.StartChallenge` | src/challenge/challenge.service.ts:245-271 | only the creator starts, only from PENDING (else Conflict); the challenge becomes ACTIVE with start time now |
| `ChallengeService.CompleteChallenge` | src/challenge/challenge.service.ts:273-312 | only the row's user completes, only in an ACTIVE challenge (else Conflict); gold rises by exactly 30 and the row records completion and time since start, with no guard against repeats |
| `ChallengeService.Finishers` | src/challenge/challenge.service.ts:316-319 | every completed row of the challenge, as often as it is stored, and no other row |
| `ChallengeService.Leaderboard` | src/challenge/challenge.service.ts:314-332 | finishers of the challenge in ascending completion time, none more often than stored; ten of them, or all of them when fewer have finished |
| `ChallengeService.LeaderboardKeepsFastest` | src/challenge/challenge.service.ts:320-323 | every finisher left off the board (or held there fewer times than stored) took at least as long as everyone on it |
| `ChallengeService.Credit` | src/challenge/challenge.service.ts:355-363 | paying places keeps the set of users |
| `ChallengeService.CreditGold` | src/challenge/challenge.service.ts:355-363 | paying the first n places moves each user's gold by exactly the prizes of the places that user holds, and no gems |
| `ChallengeService.PrizeBounds` | src/challenge/challenge.service.ts:353 | no user receives more than all places pay, which is at most 400 gold |
| `ChallengeService.TotalOfAllPrizes` | src/challenge/challenge.service.ts:353 | the first n prizes sum to at most the full table, which is 400 gold |
| `ChallengeService.FirstMissing` | src/challenge/challenge.service.ts:355-363 | the first leaderboard place whose user does not exist, or the board's length |
| `ChallengeService.PayPlaces` | src/challenge/challenge.service.ts:355-363 | the loop pays places in order until the first missing user and reports how many it paid |
| `ChallengeService.DistributeRewards` | src/challenge/challenge.service.ts:334-366 | only the creator distributes; the i-th place earns the i-th prize; a missing user stops the payout with the earlier places kept paid |
| `PetService.RowFor` | src/pet/pet.service.ts:80-82 | the user's row for the item, or -1 exactly when there is none |
| `PetService.RowIndex` | src/pet/pet.service.ts:99-102 | the inventory row with the id, or -1 exactly when there is none |
| `PetService.Price` | src/pet/pet.service.ts:62-78 | a premium item is paid in gems and any other in gold; Conflict exactly when that balance is below the cost; the paying balance never goes negative |
| `PetService.BuyItem` | src/pet/pet.service.ts:53-95 | Conflict with nothing changed when the currency falls short; otherwise exactly that currency drops by the cost and the user's row gains one, or a row of one is added; stored quantities stay positive |
| `PetService.ApplyEffect` | src/pet/pet.service.ts:122-141 | only the targeted stat changes, to min(100, stat + value); a non-negative effect on a stat within range stays within range |
| `PetService.UseItemOnPet` | src/pet/pet.service.ts:97-164 | NotFound outside the caller's inventory and BadRequest for a CUSTOMIZATION item, nothing written; otherwise ApplyEffect when the item has an effect, and the row's quantity drops by one or the row goes; stored quantities stay positive |
| `PetService.EquipItem` | src/pet/pet.service.ts:166-206 | only a CUSTOMIZATION item with a slot is equipped (else BadRequest); it replaces what that slot of the pet held and no other slot changes |
| `PetService.UnequipItem` | src/pet/pet.service.ts:208-225 | NotFound for an empty slot; otherwise only that slot is cleared |
| `Scenarios.GoldGoesNegative` | src/habit/habit.service.ts:216-221 | a slip logged on a NEGATIVE habit by a user with no gold leaves the balance below zero |
| `Scenarios.SecondLogSameDay` | src/habit/habit.service.ts:197-201 | the second log of a day is refused and the first one's gold stays |
| `Scenarios.TodoPaidTwice` | src/todo/todo.service.ts:45-51 | completing, reopening by edit and completing again pays the to-do points twice |
| `Scenarios.ChallengeCompletedTwice` | src/challenge/challenge.service.ts:273-312 | completing the same participation twice pays 60 gold |
| `Scenarios.OwnerlessGroup` | src/group/group.service.ts:354-378 | a transfer to a pending applicant followed by rejecting that applicant leaves a group with no owner |

## Left out

- Real time and time zones. Dates are integer milliseconds and a calendar day is `now / 86_400_000`, so "today" and "yesterday" are days of that count, not of a local calendar.
- `ChallengeService.CompleteChallenge`: the completion time is integer milliseconds, where the source stores float seconds (`/ 1000`). The order the leaderboard sorts by is the same.
- Database schema behaviour that is not part of this model: the schema file, and with it any cascade on delete and any foreign-key check on create. Deleting a group, challenge or task leaves the rows that refer to it in place. Creating a row does not check that the rows it refers to exist.
- Defaults the schema supplies are taken as written in the model: a new challenge is PENDING with no start time, and a new participation has progress 0 and is not completed.
- Fresh ids: the database generates ids. Each creating operation takes the new id as a parameter, with a precondition that it is unused. For a new group or challenge, unused means no membership or participation row refers to it either.
- Concurrency and isolation: some balance checks run before their transaction opens. Every operation here is one atomic step.
- A row a Prisma `update` cannot find, a null `include`, and a missing pet all give the `Internal` error.
- Read-only listing queries: `findAllForUser` of habits, to-dos and rewards, `findLogsForDaily`, `findAllDiscoverable`, `findAllPublic`, the `findOne` variants with `include`, `findUserChallenges`, `getUserInventory`, `getShopItems` and `getPetByUserId`. The daily listing's reset view, the leaderboard and the message order are modelled. `ShowDailies` takes the user's dailies as fetched, so the creation-time order of the fetch is not modelled.
- Create endpoints of habits, dailies, to-dos and rewards, and `updatePet`. They copy the request into a new row and have no rule to state.
- Controllers, DTO validation, authentication, the database client, the seed script and the web front end are not part of this model. Requests are taken as already validated: a difficulty, role or slot is one of its enum values, and a group name in a request is a string.
- `HabitService.PayToUpdate` and `DailyService.PayToUpdate`: the source's "change not allowed" BadRequest for a downgrade missing from the matrix cannot be reached. Every downgrade has an entry (`Rules.ChangeCost`), so the model has no such branch.
- `ChallengeService.Leaderboard`: rows with equal completion times are ordered by the database in an unspecified way. The contract leaves that order open, but the definition fixes one. Among tied finishers, it decides who gets the higher prize in `ChallengeService.DistributeRewards`.
- `GroupService.GetMessages`: messages with equal creation times are ordered by the database in an unspecified way. The contract leaves their order open.
- `GroupService.RoleChange`: the source's `default` branch for an unknown role cannot be reached once the request is validated, so the model has no such branch.
- Where the written description and the code differ, the model follows the code:
  - an ADMIN may promote a MEMBER, or another ADMIN, to ADMIN;
  - gold has no lower bound on negative habit logs.
