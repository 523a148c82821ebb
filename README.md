# Life tracker store and Pomodoro timer, in Dafny

This project models the client-side state of a gamified life tracker. The
store holds one document: a user with XP, level and streak, skill
categories, quests, milestones, time blocks, calendar events and kanban
boards. A fixed set of actions turns each snapshot of the document into
the next one. The persist middleware's `migrate` either rebuilds the
default document or keeps the stored one. The model also covers the
Pomodoro timer component: three session lengths, a countdown driven by a
one-second tick, and the `mm:ss` formatter.

Layout:

- `Types.dfy`
  - `Wrappers`: an `Option` type.
  - `Types`: the entities, the drafts the add actions receive, the `Partial<KanbanBoard>` patch, and the document.
- `Lists.dfy` (`Lists`): generic id-keyed list operations.
  - `find`, `filter` by id, and `map` where the id matches.
  - The index clamp that `splice` applies.
  - `Splice`, an imperative copy-and-insert over an array.
- `Kanban.dfy` (`Kanban`): `moveKanbanItem` at the level of a single board.
- `Store.dfy` (`Store`):
  - every store action as a pure function from document to document;
  - the default document and `migrate`;
  - the XP and level arithmetic;
  - the document invariant `WellFormed` and its preservation lemmas.
- `UseStore.dfy` (`UseStore.AppState`): the store object. Its fields are the document's slices. Each action is a method that overwrites the slices it changes, and each method is proved equal to the pure action on `Snapshot()`.
- `Pomodoro.dfy` (`Pomodoro`):
  - `TIMES` and `formatTime`, with a reader that proves the display round-trips;
  - the `Timer` class holding `timeLeft`, `isRunning` and `mode`.

Behaviour of the code that the model keeps on purpose:

- **`completeQuest` never checks the `completed` flag.** A second call grants the XP again (`Store.CompleteQuestTwice`).
- **The user's level is divided by the OLD `nextLevelXP`.** `nextLevelXP` is then reset to `level * 1000`, so the level can drop (`Store.UserLevelCanDrop`).
- **`moveKanbanItem` with the same source and target column drops the card.** The source branch of the column map wins (`Kanban.MoveWithinColumn`).
- **Deletes do not cascade.** For example, a milestone keeps listing a deleted quest (`Store.DeleteQuestKeepsReferences`).

## Model

| member | source | states |
|---|---|---|
| Lists.Find | src/store/useStore.ts:131 | `Array.find` by id: `None` exactly when no element has the id; otherwise the first element with it |
| Lists.FindUnique | src/store/useStore.ts:287-288 | with unique ids, looking up an element's own id finds that element |
| Lists.RemoveId | src/store/useStore.ts:170 | `filter(x => x.id !== id)`: drops exactly the matching elements (length falls by their count), leaves no match, and is the identity when the id is absent |
| Lists.RemoveIdFiltered | src/store/useStore.ts:170 | the filtered list is an order-preserving subsequence of the input with no element of the id |
| Lists.RemoveIdMembers | src/store/useStore.ts:170 | an element survives the filter exactly when it was there and has a different id |
| Lists.RemoveIdKeepsUnique | src/store/useStore.ts:170 | filtering keeps ids unique |
| Lists.RemoveIdAfterAppend | src/store/useStore.ts:125 | appending an element with a fresh id and then filtering that id gives back the list |
| Lists.AppendFreshKeepsUnique | src/store/useStore.ts:125 | appending a fresh id keeps ids unique |
| Lists.MapWhere | src/store/useStore.ts:135-137 | `map(x => x.id === id ? f(x) : x)`: same length; matching elements are replaced by their image, the others are kept |
| Lists.FindMapWhere | src/store/useStore.ts:135-137 | after such a map, `find` meets the image of the element it met before |
| Lists.MapWhereKeepsIds | src/store/useStore.ts:204-206 | a map whose images keep their id keeps the id list |
| Lists.ClampIndex | src/store/useStore.ts:304 | where `splice(start, 0, x)` inserts: in range it is `start`; past the end it is the length; a negative start counts from the end and stops at 0 |
| Lists.InsertAt | src/store/useStore.ts:303-304 | inserting at `k` leaves the prefix, puts the item at `k`, shifts the suffix by one, and adds exactly one copy of the item to the multiset |
| Lists.Splice | src/store/useStore.ts:303-304 | copying the array and splicing in the item yields `InsertAt` at the clamped index |
| Kanban.MoveInBoard | src/store/useStore.ts:286-317 | keeps the board's id, title, category and column ids; unchanged when a column id is missing or the source column does not hold the card |
| Kanban.MovedColumns | src/store/useStore.ts:295-311 | for distinct source and target, the new columns are the old ones with the source filtered and the target spliced |
| Kanban.MoveAcrossColumns | src/store/useStore.ts:286-317 | for distinct columns, the card leaves the source and sits at the clamped index of the target; the card count changes by one minus the copies removed, so it is kept when card ids are unique |
| Kanban.MoveWithinColumn | src/store/useStore.ts:296-301 | with source equal to target, the card is removed from that column and the board's card count falls |
| Kanban.TotalItemsUpdate | src/store/useStore.ts:295-311 | replacing one column changes the card count by the difference of the two columns' sizes |
| Kanban.MoveKanbanItem | src/store/useStore.ts:286-321 | moves each board independently; keeps board ids; boards lacking either column are unchanged |
| Store.DefaultDoc | src/store/useStore.ts:47-114 | the fresh document: version "1.0.0"; user at level 1 with 0 XP and threshold 1000; categories "1", "2", "3" with maxXP 1000; one board per category titled name + " Board" with empty columns backlog, todo, in-progress and done; all other lists empty |
| Store.DefaultDocWellFormed | src/store/useStore.ts:99-114 | the default document is well formed when the drawn board ids are distinct |
| Store.Migrate | src/store/useStore.ts:338-358 | envelope version 0 gives the default document; any other version gives the persisted document unchanged |
| Store.MigrateWellFormed | src/store/useStore.ts:338-358 | the migrated document is well formed exactly when it was reset or the stored one was well formed |
| Store.FloorDivBounds | src/store/useStore.ts:145 | `Math.floor(a / b)` with `b > 0` brackets `a` between consecutive multiples of `b` |
| Store.AwardCategoryXP | src/store/useStore.ts:140-148 | only totalXP and level change; totalXP grows by xp; the level is the one whose band of width maxXP holds the new total |
| Store.AwardUserXP | src/store/useStore.ts:151-164 | totalXP and availableXP grow by xp; the streak is kept; the new level's band is measured in the OLD threshold; the new threshold is level * 1000, which is positive while total XP is non-negative |
| Store.LevelExamples | src/store/useStore.ts:140-164 | a category at 900/1000 gaining 150 reaches level 2; a user at 800/1000 gaining 300 reaches level 2 with threshold 2000 |
| Store.UserLevelCanDrop | src/store/useStore.ts:151-153 | a user at level 2 with 1100 XP who gains 100 falls to level 1 |
| Store.AddQuest | src/store/useStore.ts:117-127 | exactly one quest is appended, with the fresh id, not completed, and the draft's fields; an empty due date becomes today; earlier quests and all other slices are unchanged |
| Store.AddQuestThenDelete | src/store/useStore.ts:117-172 | deleting the quest just added restores the document |
| Store.MarkQuests | src/store/useStore.ts:135-137 | quests of that id become completed, the others are untouched; length, order and ids are kept |
| Store.MarkQuestsIdempotent | src/store/useStore.ts:135-137 | marking twice is marking once |
| Store.MarkQuestsRefinds | src/store/useStore.ts:131-137 | after marking, the quest of that id is found again, completed, with the same fields otherwise |
| Store.AwardCategories | src/store/useStore.ts:140-148 | categories with the quest's category id get `AwardCategoryXP`, the others are identical; ids and maxXP are kept |
| Store.AwardCategoriesTwice | src/store/useStore.ts:140-148 | two awards add 2 * xp to the matching categories and leave the others alone |
| Store.CompleteQuest | src/store/useStore.ts:129-166 | unknown id leaves the document unchanged; otherwise quests are marked, the matching categories and the user are awarded the first matching quest's XP, and the other slices are kept |
| Store.CompleteQuestTwice | src/store/useStore.ts:129-166 | completing twice leaves the quests as after once, but grants the user and the quest's categories twice the XP |
| Store.DeleteQuest | src/store/useStore.ts:168-172 | only the quests list changes, and it is the order-preserving filter of the id |
| Store.DeleteQuestKeepsReferences | src/store/useStore.ts:168-172 | a milestone that listed the deleted quest still lists it |
| Store.AddMilestone | src/store/useStore.ts:175-186 | one milestone is appended with the fresh id, not completed, progress 0 and no quests, whatever the draft says; nothing else changes |
| Store.AddMilestoneThenDelete | src/store/useStore.ts:175-200 | deleting the milestone just added restores the document |
| Store.CompleteMilestone | src/store/useStore.ts:188-194 | milestones of that id become completed, others are untouched, ids are kept; the user and categories (XP) do not change |
| Store.DeleteMilestone | src/store/useStore.ts:196-200 | only milestones change, filtered by the id in order |
| Store.UpdateMilestone | src/store/useStore.ts:202-208 | every milestone with the new one's id is replaced by it; length and ids are kept; an absent id changes nothing |
| Store.UpdateMilestoneFinds | src/store/useStore.ts:202-208 | after the update, looking the id up finds the new milestone |
| Store.AddTimeBlock | src/store/useStore.ts:211-219 | the draft is appended under the fresh id; nothing else changes |
| Store.UpdateTimeBlock | src/store/useStore.ts:221-227 | same-id replacement, length and ids kept, absent id changes nothing |
| Store.UpdateTimeBlockFinds | src/store/useStore.ts:221-227 | after the update, looking the id up finds the new time block |
| Store.DeleteTimeBlock | src/store/useStore.ts:229-233 | only time blocks change, filtered by the id in order |
| Store.AddTimeBlockThenDelete | src/store/useStore.ts:211-233 | deleting the time block just added restores the document |
| Store.AddCalendarEvent | src/store/useStore.ts:235-243 | the draft is appended under the fresh id; nothing else changes |
| Store.UpdateCalendarEvent | src/store/useStore.ts:245-251 | same-id replacement, length and ids kept, absent id changes nothing |
| Store.UpdateCalendarEventFinds | src/store/useStore.ts:245-251 | after the update, looking the id up finds the new event |
| Store.DeleteCalendarEvent | src/store/useStore.ts:253-257 | only events change, filtered by the id in order |
| Store.AddCalendarEventThenDelete | src/store/useStore.ts:235-257 | deleting the event just added restores the document |
| Store.AddKanbanBoard | src/store/useStore.ts:260-268 | the draft is appended under the fresh id; nothing else changes |
| Store.MergeBoard | src/store/useStore.ts:273 | `{ ...b, ...updates }`: each supplied field overrides, each omitted field is kept; the empty patch is the identity |
| Store.UpdateKanbanBoard | src/store/useStore.ts:270-276 | boards of that id get the merge, others are kept; ids are kept unless the patch changes the id; an absent id changes nothing |
| Store.DeleteKanbanBoard | src/store/useStore.ts:278-282 | only boards change, filtered by the id in order |
| Store.AddKanbanBoardThenDelete | src/store/useStore.ts:260-282 | deleting the board just added restores the document |
| Store.MoveKanbanItem | src/store/useStore.ts:284-323 | only the boards change, each by `Kanban.MoveInBoard`; board ids are kept |
| Store.UpdateUserXP | src/store/useStore.ts:326-333 | only the user's availableXP changes, by exactly xp |
| Store.CompleteQuestKeepsWellFormed | src/store/useStore.ts:129-166 | completing a quest keeps the document well formed |
| Store.AddQuestKeepsWellFormed | src/store/useStore.ts:117-127 | adding a quest keeps the document well formed exactly when its XP is non-negative |
| Store.DeletesKeepWellFormed | src/store/useStore.ts:168-282 | every delete keeps the document well formed |
| Store.AddMilestoneKeepsWellFormed | src/store/useStore.ts:175-186 | adding a milestone under an id fresh among milestones keeps the document well formed |
| Store.AddTimeBlockKeepsWellFormed | src/store/useStore.ts:211-219 | adding a time block under an id fresh among time blocks keeps the document well formed |
| Store.AddCalendarEventKeepsWellFormed | src/store/useStore.ts:235-243 | adding an event under an id fresh among events keeps the document well formed |
| Store.AddKanbanBoardKeepsWellFormed | src/store/useStore.ts:260-268 | adding a board under an id fresh among boards keeps the document well formed |
| Store.CompleteMilestoneKeepsWellFormed | src/store/useStore.ts:188-194 | completing a milestone keeps the document well formed |
| Store.UpdateMilestoneKeepsWellFormed | src/store/useStore.ts:202-208 | replacing a milestone keeps the document well formed |
| Store.UpdateTimeBlockKeepsWellFormed | src/store/useStore.ts:221-227 | replacing a time block keeps the document well formed |
| Store.UpdateCalendarEventKeepsWellFormed | src/store/useStore.ts:245-251 | replacing an event keeps the document well formed |
| Store.UpdateKanbanBoardKeepsWellFormed | src/store/useStore.ts:270-276 | merging a patch into a board keeps the document well formed, provided the patch keeps the id |
| Store.MoveKanbanItemKeepsWellFormed | src/store/useStore.ts:284-323 | moving a card keeps the document well formed |
| UseStore.AppState.constructor | src/store/useStore.ts:99-114 | the store starts as the default document, which is well formed when the board ids are distinct |
| UseStore.AppState.Rehydrate | src/store/useStore.ts:335-358 | loading a persisted envelope sets the store to its migrated document; with distinct board ids the store is then well formed exactly when the envelope is version 0 or the stored document was well formed |
| UseStore.AppState.AddQuest | src/store/useStore.ts:117-127 | the new state is `Store.AddQuest` of the old one; well-formedness is kept for a non-negative reward |
| UseStore.AppState.CompleteQuest | src/store/useStore.ts:129-166 | the new state is `Store.CompleteQuest` of the old one; well-formedness is kept |
| UseStore.AppState.DeleteQuest | src/store/useStore.ts:168-172 | the new state is `Store.DeleteQuest` of the old one; well-formedness is kept |
| UseStore.AppState.AddMilestone | src/store/useStore.ts:175-186 | the new state is `Store.AddMilestone` of the old one; well-formedness is kept |
| UseStore.AppState.CompleteMilestone | src/store/useStore.ts:188-194 | the new state is `Store.CompleteMilestone` of the old one; well-formedness is kept |
| UseStore.AppState.DeleteMilestone | src/store/useStore.ts:196-200 | the new state is `Store.DeleteMilestone` of the old one; well-formedness is kept |
| UseStore.AppState.UpdateMilestone | src/store/useStore.ts:202-208 | the new state is `Store.UpdateMilestone` of the old one; well-formedness is kept |
| UseStore.AppState.AddTimeBlock | src/store/useStore.ts:211-219 | the new state is `Store.AddTimeBlock` of the old one; well-formedness is kept |
| UseStore.AppState.UpdateTimeBlock | src/store/useStore.ts:221-227 | the new state is `Store.UpdateTimeBlock` of the old one; well-formedness is kept |
| UseStore.AppState.DeleteTimeBlock | src/store/useStore.ts:229-233 | the new state is `Store.DeleteTimeBlock` of the old one; well-formedness is kept |
| UseStore.AppState.AddCalendarEvent | src/store/useStore.ts:235-243 | the new state is `Store.AddCalendarEvent` of the old one; well-formedness is kept |
| UseStore.AppState.UpdateCalendarEvent | src/store/useStore.ts:245-251 | the new state is `Store.UpdateCalendarEvent` of the old one; well-formedness is kept |
| UseStore.AppState.DeleteCalendarEvent | src/store/useStore.ts:253-257 | the new state is `Store.DeleteCalendarEvent` of the old one; well-formedness is kept |
| UseStore.AppState.AddKanbanBoard | src/store/useStore.ts:260-268 | the new state is `Store.AddKanbanBoard` of the old one; well-formedness is kept |
| UseStore.AppState.UpdateKanbanBoard | src/store/useStore.ts:270-276 | the new state is `Store.UpdateKanbanBoard` of the old one; well-formedness is kept when the patch keeps the id |
| UseStore.AppState.DeleteKanbanBoard | src/store/useStore.ts:278-282 | the new state is `Store.DeleteKanbanBoard` of the old one; well-formedness is kept |
| UseStore.AppState.MoveKanbanItem | src/store/useStore.ts:284-323 | the new state is `Store.MoveKanbanItem` of the old one; well-formedness is kept |
| UseStore.AppState.UpdateUserXP | src/store/useStore.ts:326-333 | the new state is `Store.UpdateUserXP` of the old one; well-formedness is kept |
| Pomodoro.Times | src/components/features/pomodoro/Pomodoro.tsx:72-76 | every session is positive and shorter than 100 minutes |
| Pomodoro.TimesDisplay | src/components/features/pomodoro/Pomodoro.tsx:72-76 | the three sessions show as 25:00, 05:00 and 15:00 |
| Pomodoro.NatToString | src/components/features/pomodoro/Pomodoro.tsx:99-100 | `toString()` of a non-negative integer: at least one character, all digits, at most two exactly below 100 |
| Pomodoro.NatToStringNoLeadingZero | src/components/features/pomodoro/Pomodoro.tsx:99-100 | the decimal form starts with '0' only for 0 |
| Pomodoro.ParseNatToString | src/components/features/pomodoro/Pomodoro.tsx:99-100 | reading the decimal form back gives the number |
| Pomodoro.PadStart | src/components/features/pomodoro/Pomodoro.tsx:100 | `padStart(width, fill)`: length is the larger of width and the input's; the input is the suffix; the prefix is all fill; nothing is truncated |
| Pomodoro.ParseLeadingZeros | src/components/features/pomodoro/Pomodoro.tsx:100 | zero padding does not change the value read |
| Pomodoro.TwoDigits | src/components/features/pomodoro/Pomodoro.tsx:100 | `n.toString().padStart(2, '0')`: at least two digits, exactly two below 100 |
| Pomodoro.TwoDigitsParse | src/components/features/pomodoro/Pomodoro.tsx:100 | reading the padded form back gives the number |
| Pomodoro.Minutes | src/components/features/pomodoro/Pomodoro.tsx:98 | `Math.floor(seconds / 60)` is below 100 exactly when seconds are below 6000 |
| Pomodoro.Seconds | src/components/features/pomodoro/Pomodoro.tsx:99 | `seconds % 60` is below 60 and completes minutes * 60 to the input |
| Pomodoro.Colon | src/components/features/pomodoro/Pomodoro.tsx:100 | the template joins the two parts with ':' and both are found again on either side |
| Pomodoro.FormatTime | src/components/features/pomodoro/Pomodoro.tsx:97-101 | the result has at least five characters, ':' third from the end, digits on both sides; it is exactly five long (`mm:ss`) exactly below 6000 seconds |
| Pomodoro.FormatTimeRoundTrip | src/components/features/pomodoro/Pomodoro.tsx:97-101 | reading minutes and seconds back from the display gives the input |
| Pomodoro.FormatTimeInjective | src/components/features/pomodoro/Pomodoro.tsx:97-101 | different times never show the same text |
| Pomodoro.Timer.constructor | src/components/features/pomodoro/Pomodoro.tsx:79-81 | the timer starts in work mode, full (1500 s) and paused |
| Pomodoro.Timer.HandleModeChange | src/components/features/pomodoro/Pomodoro.tsx:103-107 | the mode becomes the new one, the countdown its full length, and the timer pauses |
| Pomodoro.Timer.ToggleTimer | src/components/features/pomodoro/Pomodoro.tsx:109-111 | only the running flag flips |
| Pomodoro.Timer.ResetTimer | src/components/features/pomodoro/Pomodoro.tsx:113-116 | the countdown refills to the current mode's length and the timer pauses; the mode is kept |
| Pomodoro.Timer.Tick | src/components/features/pomodoro/Pomodoro.tsx:83-95 | running with time left takes off exactly one second; at zero the timer stops and chimes; otherwise nothing changes; the countdown stays within 0 and the session length |
| Pomodoro.Timer.Display | src/components/features/pomodoro/Pomodoro.tsx:149 | in every valid state the timer shows exactly `mm:ss` |

## Left out

- The persist middleware's storage I/O and its `name` key are not modelled;
  only `migrate` is. `UseStore.AppState.Rehydrate` stands for loading an envelope.
- `crypto.randomUUID()` is replaced by a `freshId` parameter. Every add
  action requires that this id is not yet used in its list. The random
  board ids of the default document are the `boardIds` parameter.
- The date from `new Date().toISOString()` is the `today` parameter of
  `Store.AddQuest`.
- Store.CompleteQuest: when the quest is found, requires a positive
  `nextLevelXP` and a positive `maxXP` on the categories the quest names
  (`CanComplete`), the only divisors the action uses. With a divisor of 0 the
  source's division gives `Infinity` or `NaN`. Floating point is not modelled.
- Store.Migrate: the persisted state is typed `any` in the source; here it
  is a `Doc`. A stored value of another shape is not modelled.
- Store.MergeBoard: a patch field given explicitly as `undefined` would
  overwrite the board's field in the source. The patch model cannot say it;
  such a field counts as omitted.
- Store.NewQuest: the `||` default treats every falsy due date as missing. Here
  an absent due date is the empty string, which is the only falsy string.
- Kanban.MoveInBoard: `newIndex` is an integer. A fractional or `NaN` index,
  which `splice` truncates or treats as 0, is not modelled.
- Lists.Splice: this method models the copy-and-`splice` over an array. The
  pure `Kanban.MoveColumn` uses its specification `InsertAt` at `ClampIndex`.
- Pomodoro.FormatTime: takes a `nat`. The formatting of negative seconds is
  not modelled, because the countdown never goes below zero.
- Pomodoro.Timer.Tick: one step of the effect body. The `setInterval` and
  `clearInterval` timing is not modelled. The notification sound is the
  returned `chime` flag.
- Numbers are unbounded integers. The source's IEEE doubles lose integer
  precision only above 2^53, which is not modelled.
- The React components and pages (forms, lists, the calendar, dashboard
  filters and progress bars, settings, styles) are user interface. They are
  not part of this model.
