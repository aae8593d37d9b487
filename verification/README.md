# Quest board: a Dafny model of the RPG task store

The quest board is a kanban board dressed as a role-playing game. Each task is a
"quest": a monster with an armour class (AC), hit points (HP) and an XP reward.
A card's attack button aims the task at the next column: backlog, todo,
inprogress, review, done. The store rolls a die plus the character's class
bonus. A roll of at least the AC hits. A hit toward `done` removes one HP, and
the task is completed only when its HP runs out. A hit toward any other column
moves the task at once. Completing a task awards its XP. The XP can raise the
character's level, by at most one level per award. Creating, moving and
attacking a task, and a level-up, write to an action log that keeps the 50
most recent entries, newest first. A mage has
three spells per sprint.

The project has five modules:

- `Wrappers` (wrappers.dfy): the `Option` type.
- `GameStore` (game_store.dfy): the store's entities and the pure functions
  that give each action its meaning. Examples are `Logged` (addLog), `Awarded`
  (gainXp), `Updated` (updateTask), `Removed` (deleteTask), `Moved` (moveTask)
  and `Attempted` (attemptMoveTask). It also holds `class Store`. The class has
  the store's fields (`tasks`, `character`, `sprints`, `currentSprint`,
  `actionLog`, `diceType`, `spellsUsed`). Its methods replace those fields step
  by step, calling each other as the source's actions do, and are proved
  against the functions.
- `GameStoreProperties` (game_store_properties.dfy): lemmas about those
  functions. They cover the log cap and order, single level-ups, XP awarded
  once per entry into `done`, what a hit, a miss and a kill each change, and
  the invariants the actions keep.
- `TaskCard` (task_card.dfy): the status successor table, the AC bands behind
  the monster icon and colour, and the card's hand-off to the store.
- `TaskForm` (task_form.dfy): the difficulty label, JavaScript's `trim` guard
  on the quest name, the submitted task, the slider bounds and the form reset.

Random draws, ids and clocks are inputs to the model:

- The store's `Math.random` draw is the parameter `base`, with
  `1 <= base <= diceType`.
- Ids from `crypto.randomUUID` are parameters of `AddTask` and `CreateSprint`.
- Timestamps from `new Date()` are parameters of type `Time`.

## Model

| member | source | states |
|---|---|---|
| GameStore.Logged | src/store/gameStore.ts:389-399 | the new entry is at index 0, the length is min(old length + 1, 50), and the rest is the old log's first entries in their old order |
| GameStore.TaskIndex | src/store/gameStore.ts:259-261 | `tasks.find` stops at the first task with the id; no index means that no task has it |
| GameStore.Updated | src/store/gameStore.ts:245-251 | updateTask keeps the length and order, patches every task with the id and leaves the others equal |
| GameStore.Removed | src/store/gameStore.ts:253-257 | deleteTask keeps exactly the tasks whose id differs, and never grows the list |
| GameStore.ClassTable | src/store/gameStore.ts:77-93 | `characterClasses`: the warrior's bonus is +2 and the only +2; the mage and the rogue get +1; each class has three abilities |
| GameStore.Awarded | src/store/gameStore.ts:335-358 | gainXp: the XP grows by exactly the amount, the level rises by at most one, and the name, class and abilities stay |
| GameStore.Added | src/store/gameStore.ts:227-243 | addTask: the old tasks stay in place and one task is appended under the new id with `currentHp` equal to the data's `hitPoints`; the character stays; one move-kind entry is logged under the 50-entry cap |
| GameStore.Moved | src/store/gameStore.ts:259-289 | moveTask: an unknown id changes nothing; the task count stays; the character changes only when a task enters `done` from another status; a known id logs one entry under the 50-entry cap |
| GameStore.Attempted | src/store/gameStore.ts:298-333 | an unknown id gives false and changes nothing; otherwise success is exactly roll >= AC; a miss leaves the tasks and the character unchanged |
| GameStore.FindSprint | src/store/gameStore.ts:381-387 | the sprint found is the first in the list with the id; no result means that no sprint has it |
| GameStore.Store.constructor | src/store/gameStore.ts:96-225 | the initial state: ten seed quests, a level-1 warrior with 0 of 100 XP, an empty log, a D20 and no spells used |
| GameStore.Store.AddLog | src/store/gameStore.ts:389-399 | the log becomes `Logged(old log, entry)`; nothing else changes |
| GameStore.Store.AddTask | src/store/gameStore.ts:227-243 | appends the task with `currentHp = hitPoints` and logs its creation |
| GameStore.Store.UpdateTask | src/store/gameStore.ts:245-251 | tasks become `Updated(old tasks, id, patch)`; nothing else changes |
| GameStore.Store.DeleteTask | src/store/gameStore.ts:253-257 | tasks become `Removed(old tasks, id)`; nothing else changes |
| GameStore.Store.GainXp | src/store/gameStore.ts:335-358 | the character becomes `Awarded(old character, amount)`, keeping `xpToNext = level * 100` |
| GameStore.Store.LevelUp | src/store/gameStore.ts:360-368 | logs a level-up entry that carries the current level |
| GameStore.Store.MoveTask | src/store/gameStore.ts:259-289 | tasks, character and log become `Moved(old state, id, status, now)`; sprints, dice and spells are unchanged |
| GameStore.Store.RollDice | src/store/gameStore.ts:291-296 | the roll is base plus the class bonus (2 warrior, 1 mage or rogue), so it lies in [1 + bonus, diceType + bonus] |
| GameStore.Store.AttemptMoveTask | src/store/gameStore.ts:298-333 | the result and new state are `Attempted(old state, id, status, base + bonus, now)`; the store invariant is kept |
| GameStore.Store.CreateSprint | src/store/gameStore.ts:370-379 | appends the sprint under the given id; nothing else changes |
| GameStore.Store.SetActiveSprint | src/store/gameStore.ts:381-387 | a known id makes that sprint current and resets spells to 0; an unknown id changes nothing |
| GameStore.Store.SetDiceType | src/store/gameStore.ts:401-403 | sets the die's face count; nothing else changes |
| GameStore.Store.UseSpell | src/store/gameStore.ts:405-414 | succeeds iff the class is mage and fewer than 3 spells are used, then adds one; the counter stays in 0..3 |
| GameStore.Store.ResetSpellsForSprint | src/store/gameStore.ts:416-418 | the spell counter becomes 0; nothing else changes |
| GameStoreProperties.LogNewestFirst | src/store/gameStore.ts:389-399 | after any run of entries the log holds min(old + new, 50) entries, and the newest come first in reverse order of logging |
| GameStoreProperties.AwardRaisesLevelAtMostOnce | src/store/gameStore.ts:335-358 | xp grows by the amount; the level rises by one iff xp + amount >= xpToNext, and never by more; `xpToNext` becomes level*100 or stays |
| GameStoreProperties.AwardKeepsCharacterValid | src/store/gameStore.ts:341-344 | an award keeps level >= 1 and `xpToNext = level * 100` |
| GameStoreProperties.AwardExample | src/store/gameStore.ts:335-358 | level 1 with 90/100 XP plus 20 XP gives level 2, 110 XP and a next threshold of 200 |
| GameStoreProperties.AwardOvershootExample | src/store/gameStore.ts:341-347 | 350 XP at once from level 1 gives level 2 only |
| GameStoreProperties.AwardsLevelBound | src/store/gameStore.ts:335-358 | over n awards the XP is the sum of the awards and the level rises by between 0 and n |
| GameStoreProperties.IndexAfterUpdate | src/store/gameStore.ts:245-251 | a patch that does not set the id leaves every lookup index unchanged |
| GameStoreProperties.FindAfterUpdate | src/store/gameStore.ts:245-251 | after updateTask the id's lookup finds the patched task and every other id finds what it found before |
| GameStoreProperties.UpdateTouchesOneTask | src/store/gameStore.ts:245-251 | with distinct ids, updateTask replaces exactly the one matching task |
| GameStoreProperties.UpdateKeepsIds | src/store/gameStore.ts:245-251 | a patch that does not set the id keeps the ids distinct |
| GameStoreProperties.RemovedSplits | src/store/gameStore.ts:253-257 | deleteTask distributes over concatenation, so the kept tasks keep their order |
| GameStoreProperties.RemovedNoMatch | src/store/gameStore.ts:253-257 | deleting an absent id leaves the list unchanged |
| GameStoreProperties.AddedKeepsInvariants | src/store/gameStore.ts:227-243 | a new task has `currentHp = hitPoints` and is found under its id; a fresh id keeps ids distinct and HP in range |
| GameStoreProperties.InitialTasksFresh | src/store/gameStore.ts:96-207 | every seed quest is in backlog with `currentHp = hitPoints`, which is at least 1 |
| GameStoreProperties.InitialIdsDistinct | src/store/gameStore.ts:96-207 | the ten seed quests have distinct ids |
| GameStoreProperties.InitialCharacterValid | src/store/gameStore.ts:213-220 | the initial character is at level 1 with 0 XP and `xpToNext = level * 100` |
| GameStoreProperties.MoveAwardsOnlyOnEntry | src/store/gameStore.ts:259-289 | an unknown id is a no-op; otherwise the status is set, and XP and `completedAt` are given exactly on entry into `done` from another status |
| GameStoreProperties.CompletionAwardsOnce | src/store/gameStore.ts:265-267 | moving a task to `done` twice awards its XP once |
| GameStoreProperties.MoveKeepsInvariants | src/store/gameStore.ts:259-289 | moveTask keeps the log cap, a valid character, distinct ids and HP in range |
| GameStoreProperties.AttemptLogsOneRoll | src/store/gameStore.ts:302-312 | an attempt on a known task logs exactly one roll entry with the roll and the success flag; on a hit one move entry follows it; older entries are truncated to the cap |
| GameStoreProperties.AttemptAdvances | src/store/gameStore.ts:327-329 | a hit toward a status other than `done` sets that status and leaves the character unchanged |
| GameStoreProperties.AttemptDamages | src/store/gameStore.ts:315-326 | a hit toward `done` with more than 1 HP left lowers only `currentHp`, by one, awards nothing, and logs the roll followed by a damage entry with the new HP over the maximum |
| GameStoreProperties.AttemptSlays | src/store/gameStore.ts:315-319 | a hit toward `done` with at most 1 HP left makes the task `done`, and awards XP only if it was not done already |
| GameStoreProperties.AttemptOnDoneAwardsNothing | src/store/gameStore.ts:314-329 | attacking a task that is already done never changes the character |
| GameStoreProperties.AttemptKeepsInvariants | src/store/gameStore.ts:298-333 | attempts keep the log cap, a valid character, distinct ids and 1 <= currentHp <= hitPoints |
| TaskCard.NextStatusAdvancesOneStage | src/components/TaskCard.tsx:22-31 | only `done` lacks a successor; each successor is exactly one stage on |
| TaskCard.NextStatus | src/components/TaskCard.tsx:22-31 | `getNextStatus`: no successor exactly for `done`; a successor is never `backlog` and never the status itself |
| TaskCard.Journey | src/components/TaskCard.tsx:22-31 | following successors from any status reaches `done` in at most 4 steps, each one stage further on |
| TaskCard.JourneyNeverRevisits | src/components/TaskCard.tsx:22-31 | the path from any status to `done` never repeats a status |
| TaskCard.BandMonotone | src/components/TaskCard.tsx:64-78 | the AC band (cut points 8/12/15/18) is monotone and at most 4 |
| TaskCard.MonsterIcon | src/components/TaskCard.tsx:64-70 | `getMonsterIcon`: one of the five monster icons; the rat exactly below AC 8 and the dragon exactly from AC 18 |
| TaskCard.DifficultyColor | src/components/TaskCard.tsx:72-78 | `getDifficultyColor`: one of the five colours; grey exactly below AC 8 and red exactly from AC 18 |
| TaskCard.IconAndColorFollowBand | src/components/TaskCard.tsx:64-78 | the icon and the colour are each read off the AC's band |
| TaskCard.ColorBandsAreIconBands | src/components/TaskCard.tsx:64-78 | two ACs share an icon iff they share a colour iff they share a band |
| TaskCard.Card.constructor | src/components/TaskCard.tsx:19-20 | the card starts aimed at `todo` with the dice roller closed |
| TaskCard.Card.HandleMoveAttempt | src/components/TaskCard.tsx:33-39 | aims at the next status and opens the roller; for a `done` task nothing changes |
| TaskCard.Card.HandleDiceRoll | src/components/TaskCard.tsx:41-43 | the store's new state is the attempt with the store's own roll; the roller's `result` plays no part |
| TaskCard.CardAttackNeverRetreats | src/components/TaskCard.tsx:33-43 | an attack aimed by the card never targets a done task and either keeps the stage (losing at most one HP) or advances it by one |
| TaskForm.LabelFollowsBand | src/components/TaskForm.tsx:55-61 | the label is a step function of the AC band, and its icon and colour equal the card's |
| TaskForm.LabelMonotone | src/components/TaskForm.tsx:55-61 | a higher AC never shows an earlier label |
| TaskForm.DifficultyLabel | src/components/TaskForm.tsx:55-61 | `getDifficultyLabel`: a label, icon and colour from the five-entry tables; "Fácil" exactly below AC 8 and "Lendário" exactly from AC 18 |
| TaskForm.TrimStart | src/components/TaskForm.tsx:31 | drops exactly the leading JavaScript white space |
| TaskForm.TrimEnd | src/components/TaskForm.tsx:31 | drops exactly the trailing JavaScript white space |
| TaskForm.Trim | src/components/TaskForm.tsx:31 | `trim`: never longer than the input, and a non-empty result neither starts nor ends with white space |
| TaskForm.TrimCutsOnlyWhitespace | src/components/TaskForm.tsx:31 | `trim` keeps one contiguous slice of the input, starting where the leading white space ends, and everything cut off on either side is white space |
| TaskForm.TrimEmptyIffBlank | src/components/TaskForm.tsx:31 | the trimmed name is empty iff every character is white space |
| TaskForm.SubmittedQuestShape | src/components/TaskForm.tsx:33-41 | a submitted quest is in backlog with `currentHp = hitPoints`, AC in 5..20, HP in 1..5 and XP in 10..200 in steps of 10 |
| TaskForm.Submitted | src/components/TaskForm.tsx:33-41 | the task data handed to addTask is in `backlog`, not completed, and has `currentHp = hitPoints` |
| TaskForm.Form.constructor | src/components/TaskForm.tsx:20-26 | the form starts with an empty name and description, AC 10, HP 1 and XP 50 |
| TaskForm.Form.SetName | src/components/TaskForm.tsx:93 | sets the name only |
| TaskForm.Form.SetDescription | src/components/TaskForm.tsx:108 | sets the description only |
| TaskForm.Form.SetArmorClass | src/components/TaskForm.tsx:127-134 | the AC slider keeps the AC in 5..20 |
| TaskForm.Form.SetHitPoints | src/components/TaskForm.tsx:151-158 | the HP slider keeps the HP in 1..5 |
| TaskForm.Form.SetXpReward | src/components/TaskForm.tsx:175-182 | the XP slider keeps the XP in 10..200, in steps of 10 |
| TaskForm.Form.HandleSubmit | src/components/TaskForm.tsx:28-53 | a blank name changes nothing; otherwise the store adds the backlog quest built from the form, and the form returns to its defaults |

## Left out

- Persistence: the zustand `persist` wrapper and its storage key (src/store/gameStore.ts:420-422) are storage plumbing.
- Log entries carry no id or timestamp. Each message is a datatype naming its template and the values it interpolates; the model does not format text.
- The 500 ms `setTimeout` that calls `levelUp` after a level-up (src/store/gameStore.ts:346) is timing. `GainXp` changes the level; `LevelUp` is modelled on its own and is not called from `GainXp`.
- `ClassTable`'s abilities and a sprint's contents are data that no action reads, beyond finding a sprint by id.
- GameStore.Store.SetDiceType: requires at least one face. The store itself accepts any number. Its only caller, the die selector in src/pages/Index.tsx:45-55, offers 20, 12, 10, 8 and 6.
- TaskForm.Form.SetArmorClass, TaskForm.Form.SetHitPoints, TaskForm.Form.SetXpReward: these require a value the slider can produce. The slider component only delivers such values.
- No action changes the character's class, and the initial class is warrior. So `UseSpell` returns false in every state reached from the initial state. It is modelled for a store whose class is mage.
- Task ids are not assumed distinct. Lookups find the first match and `updateTask` patches every match, as the source does. The lemmas that need distinct ids say so.
- `onClose`, `e.preventDefault()`, `getCardStyle`, the HP bar width and all JSX are rendering. src/components/DiceRoller.tsx, CharacterSheet.tsx, ActionLog.tsx, KanbanBoard.tsx and src/pages/Index.tsx are not part of this model. DiceRoller's own roll is discarded by `handleDiceRoll`, and the board's `finish`/`failed` columns do not exist in the store's status type.
- The store has no task categories, class affinities, attempt budget or failed stage. A task has five statuses and its progress is its HP.
