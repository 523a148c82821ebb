/**
 * The store's actions as functions from one document snapshot to the next,
 * the default document, and the migration of a persisted envelope.
 * Ids that the application draws from `crypto.randomUUID()` and the date
 * it reads from the clock are parameters here.
 */
module Store {
  import opened Wrappers
  import opened Types
  import opened Lists
  import Kanban

  /** The document's own version tag. */
  const StoreVersion: string := "1.0.0"

  // ---------------------------------------------------------------------
  // Default document
  // ---------------------------------------------------------------------

  function DefaultCategories(): seq<Category> {
    [ Category("1", "Coding & GameDev", "<i class=\"fas fa-code\"></i>", "#FF6B6B", 0, 1000, 1,
               ["Programming", "Game Development", "Web Development"]),
      Category("2", "Azure Certification", "<i class=\"fas fa-cloud\"></i>", "#45B7D1", 0, 1000, 1,
               ["Cloud", "DevOps", "Architecture"]),
      Category("3", "Fitness", "<i class=\"fas fa-dumbbell\"></i>", "#4ECDC4", 0, 1000, 1,
               ["Strength", "Cardio", "Flexibility"]) ]
  }

  function DefaultUser(): User {
    User(1, 0, 1000, 0, Streak(0, 0, None))
  }

  function DefaultColumns(): seq<KanbanColumn> {
    [ KanbanColumn("backlog", "Backlog", []),
      KanbanColumn("todo", "To Do", []),
      KanbanColumn("in-progress", "In Progress", []),
      KanbanColumn("done", "Done", []) ]
  }

  /** One board per default category; `boardIds` are the ids drawn for them. */
  function DefaultBoards(boardIds: seq<string>): seq<KanbanBoard>
    requires |boardIds| == |DefaultCategories()|
  {
    var cats := DefaultCategories();
    seq(|cats|, k requires 0 <= k < |cats| =>
      KanbanBoard(boardIds[k], cats[k].name + " Board", cats[k].id, DefaultColumns()))
  }

  /** The document a fresh store starts from, and the one a legacy envelope is reset to. */
  function DefaultDoc(boardIds: seq<string>): (d: Doc)
    requires |boardIds| == 3
    ensures d.version == StoreVersion
    ensures d.user.level == 1 && d.user.totalXP == 0 && d.user.nextLevelXP == 1000
    ensures d.user.availableXP == 0 && d.user.streak == Streak(0, 0, None)
    ensures Ids(d.categories, CategoryKey) == ["1", "2", "3"]
    ensures forall c :: c in d.categories ==> c.totalXP == 0 && c.maxXP == 1000 && c.level == 1
    ensures |d.kanbanBoards| == 3
    ensures forall k :: 0 <= k < 3 ==>
              && d.kanbanBoards[k].id == boardIds[k]
              && d.kanbanBoards[k].title == d.categories[k].name + " Board"
              && d.kanbanBoards[k].category == d.categories[k].id
              && Ids(d.kanbanBoards[k].columns, ColumnKey) == ["backlog", "todo", "in-progress", "done"]
              && forall c :: c in d.kanbanBoards[k].columns ==> c.items == []
    ensures d.quests == [] && d.milestones == [] && d.timeblocks == [] && d.calendarEvents == []
  {
    var d := Doc(StoreVersion, DefaultUser(), DefaultCategories(), [], [], [], [], DefaultBoards(boardIds));
    assert Ids(d.categories, CategoryKey) == ["1", "2", "3"];
    assert Ids(DefaultColumns(), ColumnKey) == ["backlog", "todo", "in-progress", "done"];
    d
  }

  /** The persist middleware's `migrate`: envelope version 0 rebuilds the
      default document, any other version keeps what was stored. */
  function Migrate(persisted: Doc, version: int, boardIds: seq<string>): (r: Doc)
    requires |boardIds| == 3
    ensures version == 0 ==> r == DefaultDoc(boardIds)
    ensures version != 0 ==> r == persisted
  {
    if version == 0 then DefaultDoc(boardIds) else persisted
  }

  // ---------------------------------------------------------------------
  // Document invariants
  // ---------------------------------------------------------------------

  /** The divisors `completeQuest` uses are positive. */
  predicate Divisible(d: Doc) {
    && d.user.nextLevelXP > 0
    && forall k :: 0 <= k < |d.categories| ==> d.categories[k].maxXP > 0
  }

  /** The divisors `completeQuest` uses on `questId` are positive: when the
      quest is found, the user's threshold and the `maxXP` of every category
      the quest names. An unknown id divides by nothing. */
  predicate CanComplete(d: Doc, questId: string) {
    HasId(d.quests, QuestKey, questId) ==>
      && d.user.nextLevelXP > 0
      && forall k :: 0 <= k < |d.categories| && d.categories[k].id == Find(d.quests, QuestKey, questId).value.category ==>
           d.categories[k].maxXP > 0
  }

  /** What the data model promises of a document: positive divisors,
      non-negative XP, and no id used twice within a list. */
  predicate WellFormed(d: Doc) {
    && Divisible(d)
    && d.user.totalXP >= 0
    && (forall k :: 0 <= k < |d.quests| ==> d.quests[k].xp >= 0)
    && UniqueIds(d.quests, QuestKey)
    && UniqueIds(d.milestones, MilestoneKey)
    && UniqueIds(d.timeblocks, TimeBlockKey)
    && UniqueIds(d.calendarEvents, EventKey)
    && UniqueIds(d.kanbanBoards, BoardKey)
  }

  // ---------------------------------------------------------------------
  // XP arithmetic
  // ---------------------------------------------------------------------

  /** Floor division by a positive divisor brackets the dividend. */
  lemma FloorDivBounds(a: int, b: int)
    requires b > 0
    ensures (a / b) * b <= a < (a / b + 1) * b
  {
    var q, m := a / b, a % b;
    assert a == q * b + m && 0 <= m < b;
  }

  /** One category after a quest of `xp` points in it is completed. Its
      level is one more than the number of whole `maxXP` steps in its new total. */
  function AwardCategoryXP(c: Category, xp: int): (r: Category)
    requires c.maxXP > 0
    ensures r == c.(totalXP := c.totalXP + xp, level := r.level)
    ensures (r.level - 1) * c.maxXP <= r.totalXP < r.level * c.maxXP
  {
    FloorDivBounds(c.totalXP + xp, c.maxXP);
    c.(totalXP := c.totalXP + xp, level := (c.totalXP + xp) / c.maxXP + 1)
  }

  /** The user after completing a quest of `xp` points. The new level counts
      whole steps of the OLD `nextLevelXP` in the new total; the threshold is
      then reset to a thousand per level. */
  function AwardUserXP(u: User, xp: int): (r: User)
    requires u.nextLevelXP > 0
    ensures r.totalXP == u.totalXP + xp
    ensures r.availableXP == u.availableXP + xp
    ensures r.streak == u.streak
    ensures (r.level - 1) * u.nextLevelXP <= r.totalXP < r.level * u.nextLevelXP
    ensures r.nextLevelXP == r.level * 1000
    ensures r.totalXP >= 0 ==> r.level >= 1 && r.nextLevelXP > 0
  {
    var total := u.totalXP + xp;
    var level := total / u.nextLevelXP + 1;
    FloorDivBounds(total, u.nextLevelXP);
    u.(totalXP := total, level := level, nextLevelXP := level * 1000, availableXP := u.availableXP + xp)
  }

  /** The worked numbers: a category at 900 of 1000 gaining 150 reaches
      level 2 at 1050; a user at 800 of 1000 gaining 300 reaches level 2 at
      1100 with a threshold of 2000. */
  lemma LevelExamples()
    ensures var c := AwardCategoryXP(Category("1", "", "", "", 900, 1000, 1, []), 150);
            c.totalXP == 1050 && c.level == 2
    ensures var u := AwardUserXP(User(1, 800, 1000, 0, Streak(0, 0, None)), 300);
            u.totalXP == 1100 && u.level == 2 && u.nextLevelXP == 2000
  {
  }

  /** Dividing by the old threshold makes the user's level non-monotone:
      at 1100 XP and level 2 (threshold 2000), 100 more XP gives level 1. */
  lemma UserLevelCanDrop()
    ensures var u := AwardUserXP(User(2, 1100, 2000, 0, Streak(0, 0, None)), 100);
            u.totalXP == 1200 && u.level == 1 && u.nextLevelXP == 1000
  {
  }

  // ---------------------------------------------------------------------
  // Quest actions
  // ---------------------------------------------------------------------

  function NewQuest(draft: QuestDraft, freshId: string, today: string): Quest {
    Quest(freshId, draft.title, draft.description, draft.category, draft.xp, false,
          if draft.dueDate != "" then draft.dueDate else today,
          draft.milestoneId, draft.timeblocks)
  }

  /** `addQuest`: one new quest at the end, nothing else touched. */
  function AddQuest(d: Doc, draft: QuestDraft, freshId: string, today: string): (r: Doc)
    requires !HasId(d.quests, QuestKey, freshId)
    ensures |r.quests| == |d.quests| + 1 && r.quests[..|d.quests|] == d.quests
    ensures var q := r.quests[|d.quests|];
            && q.id == freshId && !q.completed
            && q.title == draft.title && q.description == draft.description
            && q.category == draft.category && q.xp == draft.xp
            && q.milestoneId == draft.milestoneId && q.timeblocks == draft.timeblocks
            && q.dueDate == (if draft.dueDate == "" then today else draft.dueDate)
    ensures forall k :: 0 <= k < |d.quests| ==> r.quests[k].id != r.quests[|d.quests|].id
    ensures r.(quests := d.quests) == d
  {
    var r := d.(quests := d.quests + [NewQuest(draft, freshId, today)]);
    assert r.quests[..|d.quests|] == d.quests;
    r
  }

  function MarkQuestDone(q: Quest): Quest { q.(completed := true) }

  /** The quest list after `completeQuest`: every quest of that id marked
      completed, in place. */
  function MarkQuests(quests: seq<Quest>, questId: string): (r: seq<Quest>)
    ensures |r| == |quests|
    ensures Ids(r, QuestKey) == Ids(quests, QuestKey)
    ensures forall k :: 0 <= k < |quests| ==>
              r[k] == if quests[k].id == questId then quests[k].(completed := true) else quests[k]
  {
    MapWhere(quests, QuestKey, questId, MarkQuestDone)
  }

  /** Marking is idempotent: the completion flag is the one part of
      `completeQuest` that a second call does not change. */
  lemma MarkQuestsIdempotent(quests: seq<Quest>, questId: string)
    ensures MarkQuests(MarkQuests(quests, questId), questId) == MarkQuests(quests, questId)
  {
    var once := MarkQuests(quests, questId);
    var twice := MarkQuests(once, questId);
    forall k | 0 <= k < |quests| ensures twice[k] == once[k] {
    }
  }

  /** The category list after `completeQuest`: every category of id
      `catId` gains `xp`, the others stay; ids and divisors are kept. */
  function AwardCategories(cats: seq<Category>, catId: string, xp: int): (r: seq<Category>)
    requires forall k :: 0 <= k < |cats| && cats[k].id == catId ==> cats[k].maxXP > 0
    ensures |r| == |cats|
    ensures forall k :: 0 <= k < |cats| ==> r[k].id == cats[k].id && r[k].maxXP == cats[k].maxXP
    ensures forall k :: 0 <= k < |cats| ==>
              r[k] == if cats[k].id == catId then AwardCategoryXP(cats[k], xp) else cats[k]
  {
    MapWhere(cats, CategoryKey, catId, (c: Category) requires c.maxXP > 0 => AwardCategoryXP(c, xp))
  }

  /** `completeQuest`. An unknown id leaves the document as it is. Otherwise,
      with `q` the first quest of that id: every quest of that id is marked
      completed, every category with id `q.category` gains `q.xp`, and so
      does the user; the other lists do not change. The flag is never
      checked, so completing again grants the XP again. */
  function CompleteQuest(d: Doc, questId: string): (r: Doc)
    requires CanComplete(d, questId)
    ensures !HasId(d.quests, QuestKey, questId) ==> r == d
    ensures HasId(d.quests, QuestKey, questId) ==>
              var q := Find(d.quests, QuestKey, questId).value;
              && q.id == questId
              && r.quests == MarkQuests(d.quests, questId)
              && r.categories == AwardCategories(d.categories, q.category, q.xp)
              && r.user == AwardUserXP(d.user, q.xp)
    ensures r.(quests := d.quests, categories := d.categories, user := d.user) == d
  {
    var found := Find(d.quests, QuestKey, questId);
    if found.None? then d
    else
      var q := found.value;
      d.(quests := MarkQuests(d.quests, questId),
         categories := AwardCategories(d.categories, q.category, q.xp),
         user := AwardUserXP(d.user, q.xp))
  }

  /** After marking, the quest of that id is found again, now marked, with
      the same category and reward. */
  lemma MarkQuestsRefinds(quests: seq<Quest>, questId: string)
    requires HasId(quests, QuestKey, questId)
    ensures HasId(MarkQuests(quests, questId), QuestKey, questId)
    ensures Find(MarkQuests(quests, questId), QuestKey, questId)
            == Some(Find(quests, QuestKey, questId).value.(completed := true))
  {
    FindMapWhere(quests, QuestKey, questId, MarkQuestDone);
  }

  /** Completing the same quest twice: the flags are as after one call, but
      the user and the quest's categories are granted its XP twice. */
  lemma CompleteQuestTwice(d: Doc, questId: string)
    requires CanComplete(d, questId)
    requires HasId(d.quests, QuestKey, questId)
    requires d.user.totalXP + Find(d.quests, QuestKey, questId).value.xp >= 0
    ensures var q := Find(d.quests, QuestKey, questId).value;
            var once := CompleteQuest(d, questId);
            CanComplete(once, questId) &&
            var twice := CompleteQuest(once, questId);
            && twice.quests == once.quests
            && twice.user.totalXP == d.user.totalXP + 2 * q.xp
            && twice.user.availableXP == d.user.availableXP + 2 * q.xp
            && |twice.categories| == |d.categories|
            && (forall k :: 0 <= k < |d.categories| && d.categories[k].id == q.category ==>
                  twice.categories[k].totalXP == d.categories[k].totalXP + 2 * q.xp)
            && (forall k :: 0 <= k < |d.categories| && d.categories[k].id != q.category ==>
                  twice.categories[k] == d.categories[k])
  {
    var q := Find(d.quests, QuestKey, questId).value;
    var once := CompleteQuest(d, questId);
    MarkQuestsRefinds(d.quests, questId);
    assert Find(once.quests, QuestKey, questId).value.xp == q.xp;
    assert Find(once.quests, QuestKey, questId).value.category == q.category;
    assert once.user.nextLevelXP > 0;
    MarkQuestsIdempotent(d.quests, questId);
    AwardCategoriesTwice(d.categories, q.category, q.xp);
  }

  /** Two awards of `xp` to the same categories add `2 * xp` to each of them. */
  lemma AwardCategoriesTwice(cats: seq<Category>, catId: string, xp: int)
    requires forall k :: 0 <= k < |cats| && cats[k].id == catId ==> cats[k].maxXP > 0
    ensures var once := AwardCategories(cats, catId, xp);
            && (forall k :: 0 <= k < |once| && once[k].id == catId ==> once[k].maxXP > 0)
            && var twice := AwardCategories(once, catId, xp);
            && |twice| == |cats|
            && (forall k :: 0 <= k < |cats| && cats[k].id == catId ==>
                  twice[k].totalXP == cats[k].totalXP + 2 * xp)
            && (forall k :: 0 <= k < |cats| && cats[k].id != catId ==> twice[k] == cats[k])
  {
  }

  /** `deleteQuest`: exactly the quests of that id go; nothing else changes,
      so milestones and time blocks keep referring to the deleted id. */
  function DeleteQuest(d: Doc, questId: string): (r: Doc)
    ensures Filtered(r.quests, d.quests, QuestKey, questId)
    ensures r.(quests := d.quests) == d
  {
    RemoveIdFiltered(d.quests, QuestKey, questId);
    d.(quests := RemoveId(d.quests, QuestKey, questId))
  }

  /** Deleting a quest does not cascade: a milestone that listed it still does. */
  lemma DeleteQuestKeepsReferences(d: Doc, questId: string, k: nat)
    requires k < |d.milestones| && questId in d.milestones[k].quests
    ensures var r := DeleteQuest(d, questId);
            !HasId(r.quests, QuestKey, questId) && questId in r.milestones[k].quests
  {
  }

  /** Deleting the quest just added gives back the document before. */
  lemma AddQuestThenDelete(d: Doc, draft: QuestDraft, freshId: string, today: string)
    requires !HasId(d.quests, QuestKey, freshId)
    ensures DeleteQuest(AddQuest(d, draft, freshId, today), freshId) == d
  {
    RemoveIdAfterAppend(d.quests, NewQuest(draft, freshId, today), QuestKey);
  }

  // ---------------------------------------------------------------------
  // Milestone actions
  // ---------------------------------------------------------------------

  function NewMilestone(draft: MilestoneDraft, freshId: string): Milestone {
    Milestone(freshId, draft.title, draft.description, draft.category, draft.xp, false,
              draft.dueDate, [], 0)
  }

  /** `addMilestone`: a new milestone at the end, not completed, with no
      progress and no quests whatever the draft says. */
  function AddMilestone(d: Doc, draft: MilestoneDraft, freshId: string): (r: Doc)
    requires !HasId(d.milestones, MilestoneKey, freshId)
    ensures |r.milestones| == |d.milestones| + 1 && r.milestones[..|d.milestones|] == d.milestones
    ensures var m := r.milestones[|d.milestones|];
            && m.id == freshId && !m.completed && m.progress == 0 && m.quests == []
            && m.title == draft.title && m.description == draft.description
            && m.category == draft.category && m.xp == draft.xp && m.dueDate == draft.dueDate
    ensures r.(milestones := d.milestones) == d
  {
    var r := d.(milestones := d.milestones + [NewMilestone(draft, freshId)]);
    assert r.milestones[..|d.milestones|] == d.milestones;
    r
  }

  function MarkMilestoneDone(m: Milestone): Milestone { m.(completed := true) }

  /** `completeMilestone`: marks every milestone of that id; no XP moves. */
  function CompleteMilestone(d: Doc, milestoneId: string): (r: Doc)
    ensures |r.milestones| == |d.milestones|
    ensures forall k :: 0 <= k < |d.milestones| ==>
              r.milestones[k] == if d.milestones[k].id == milestoneId
                                 then d.milestones[k].(completed := true) else d.milestones[k]
    ensures Ids(r.milestones, MilestoneKey) == Ids(d.milestones, MilestoneKey)
    ensures r.user == d.user && r.categories == d.categories
    ensures r.(milestones := d.milestones) == d
  {
    d.(milestones := MapWhere(d.milestones, MilestoneKey, milestoneId, MarkMilestoneDone))
  }

  /** `deleteMilestone`. */
  function DeleteMilestone(d: Doc, milestoneId: string): (r: Doc)
    ensures Filtered(r.milestones, d.milestones, MilestoneKey, milestoneId)
    ensures r.(milestones := d.milestones) == d
  {
    RemoveIdFiltered(d.milestones, MilestoneKey, milestoneId);
    d.(milestones := RemoveId(d.milestones, MilestoneKey, milestoneId))
  }

  /** `updateMilestone`: full replacement of the milestones with its id. */
  function UpdateMilestone(d: Doc, m: Milestone): (r: Doc)
    ensures |r.milestones| == |d.milestones|
    ensures Ids(r.milestones, MilestoneKey) == Ids(d.milestones, MilestoneKey)
    ensures forall k :: 0 <= k < |d.milestones| ==>
              r.milestones[k] == if d.milestones[k].id == m.id then m else d.milestones[k]
    ensures !HasId(d.milestones, MilestoneKey, m.id) ==> r == d
    ensures r.(milestones := d.milestones) == d
  {
    var r := d.(milestones := MapWhere(d.milestones, MilestoneKey, m.id, _ => m));
    assert !HasId(d.milestones, MilestoneKey, m.id) ==> r.milestones == d.milestones;
    r
  }

  lemma AddMilestoneThenDelete(d: Doc, draft: MilestoneDraft, freshId: string)
    requires !HasId(d.milestones, MilestoneKey, freshId)
    ensures DeleteMilestone(AddMilestone(d, draft, freshId), freshId) == d
  {
    RemoveIdAfterAppend(d.milestones, NewMilestone(draft, freshId), MilestoneKey);
  }

  // ---------------------------------------------------------------------
  // Time blocks and calendar events
  // ---------------------------------------------------------------------

  function NewTimeBlock(draft: TimeBlockDraft, freshId: string): TimeBlock {
    TimeBlock(freshId, draft.title, draft.start, draft.end, draft.questId, draft.category, draft.completed)
  }

  /** `addTimeBlock`: the draft under a fresh id, appended. */
  function AddTimeBlock(d: Doc, draft: TimeBlockDraft, freshId: string): (r: Doc)
    requires !HasId(d.timeblocks, TimeBlockKey, freshId)
    ensures |r.timeblocks| == |d.timeblocks| + 1 && r.timeblocks[..|d.timeblocks|] == d.timeblocks
    ensures var t := r.timeblocks[|d.timeblocks|];
            && t.id == freshId && t.title == draft.title && t.start == draft.start && t.end == draft.end
            && t.questId == draft.questId && t.category == draft.category && t.completed == draft.completed
    ensures r.(timeblocks := d.timeblocks) == d
  {
    var r := d.(timeblocks := d.timeblocks + [NewTimeBlock(draft, freshId)]);
    assert r.timeblocks[..|d.timeblocks|] == d.timeblocks;
    r
  }

  /** `updateTimeBlock`: full replacement of the time blocks with its id. */
  function UpdateTimeBlock(d: Doc, t: TimeBlock): (r: Doc)
    ensures |r.timeblocks| == |d.timeblocks|
    ensures Ids(r.timeblocks, TimeBlockKey) == Ids(d.timeblocks, TimeBlockKey)
    ensures forall k :: 0 <= k < |d.timeblocks| ==>
              r.timeblocks[k] == if d.timeblocks[k].id == t.id then t else d.timeblocks[k]
    ensures !HasId(d.timeblocks, TimeBlockKey, t.id) ==> r == d
    ensures r.(timeblocks := d.timeblocks) == d
  {
    var r := d.(timeblocks := MapWhere(d.timeblocks, TimeBlockKey, t.id, _ => t));
    assert !HasId(d.timeblocks, TimeBlockKey, t.id) ==> r.timeblocks == d.timeblocks;
    r
  }

  /** `deleteTimeBlock`. */
  function DeleteTimeBlock(d: Doc, timeblockId: string): (r: Doc)
    ensures Filtered(r.timeblocks, d.timeblocks, TimeBlockKey, timeblockId)
    ensures r.(timeblocks := d.timeblocks) == d
  {
    RemoveIdFiltered(d.timeblocks, TimeBlockKey, timeblockId);
    d.(timeblocks := RemoveId(d.timeblocks, TimeBlockKey, timeblockId))
  }

  lemma AddTimeBlockThenDelete(d: Doc, draft: TimeBlockDraft, freshId: string)
    requires !HasId(d.timeblocks, TimeBlockKey, freshId)
    ensures DeleteTimeBlock(AddTimeBlock(d, draft, freshId), freshId) == d
  {
    RemoveIdAfterAppend(d.timeblocks, NewTimeBlock(draft, freshId), TimeBlockKey);
  }

  function NewCalendarEvent(draft: CalendarEventDraft, freshId: string): CalendarEvent {
    CalendarEvent(freshId, draft.title, draft.description, draft.start, draft.end, draft.allDay,
                  draft.category, draft.kind, draft.relatedId, draft.completed)
  }

  /** `addCalendarEvent`: the draft under a fresh id, appended. */
  function AddCalendarEvent(d: Doc, draft: CalendarEventDraft, freshId: string): (r: Doc)
    requires !HasId(d.calendarEvents, EventKey, freshId)
    ensures |r.calendarEvents| == |d.calendarEvents| + 1
    ensures r.calendarEvents[..|d.calendarEvents|] == d.calendarEvents
    ensures var e := r.calendarEvents[|d.calendarEvents|];
            && e.id == freshId && e.title == draft.title && e.description == draft.description
            && e.start == draft.start && e.end == draft.end && e.allDay == draft.allDay
            && e.category == draft.category && e.kind == draft.kind
            && e.relatedId == draft.relatedId && e.completed == draft.completed
    ensures r.(calendarEvents := d.calendarEvents) == d
  {
    var r := d.(calendarEvents := d.calendarEvents + [NewCalendarEvent(draft, freshId)]);
    assert r.calendarEvents[..|d.calendarEvents|] == d.calendarEvents;
    r
  }

  /** `updateCalendarEvent`: full replacement of the events with its id. */
  function UpdateCalendarEvent(d: Doc, e: CalendarEvent): (r: Doc)
    ensures |r.calendarEvents| == |d.calendarEvents|
    ensures Ids(r.calendarEvents, EventKey) == Ids(d.calendarEvents, EventKey)
    ensures forall k :: 0 <= k < |d.calendarEvents| ==>
              r.calendarEvents[k] == if d.calendarEvents[k].id == e.id then e else d.calendarEvents[k]
    ensures !HasId(d.calendarEvents, EventKey, e.id) ==> r == d
    ensures r.(calendarEvents := d.calendarEvents) == d
  {
    var r := d.(calendarEvents := MapWhere(d.calendarEvents, EventKey, e.id, _ => e));
    assert !HasId(d.calendarEvents, EventKey, e.id) ==> r.calendarEvents == d.calendarEvents;
    r
  }

  /** `deleteCalendarEvent`. */
  function DeleteCalendarEvent(d: Doc, eventId: string): (r: Doc)
    ensures Filtered(r.calendarEvents, d.calendarEvents, EventKey, eventId)
    ensures r.(calendarEvents := d.calendarEvents) == d
  {
    RemoveIdFiltered(d.calendarEvents, EventKey, eventId);
    d.(calendarEvents := RemoveId(d.calendarEvents, EventKey, eventId))
  }

  lemma AddCalendarEventThenDelete(d: Doc, draft: CalendarEventDraft, freshId: string)
    requires !HasId(d.calendarEvents, EventKey, freshId)
    ensures DeleteCalendarEvent(AddCalendarEvent(d, draft, freshId), freshId) == d
  {
    RemoveIdAfterAppend(d.calendarEvents, NewCalendarEvent(draft, freshId), EventKey);
  }

  // After an update, looking the id up again finds exactly the value passed in.

  lemma UpdateMilestoneFinds(d: Doc, m: Milestone)
    requires HasId(d.milestones, MilestoneKey, m.id)
    ensures Find(UpdateMilestone(d, m).milestones, MilestoneKey, m.id) == Some(m)
  {
    FindMapWhere(d.milestones, MilestoneKey, m.id, _ => m);
  }

  lemma UpdateTimeBlockFinds(d: Doc, t: TimeBlock)
    requires HasId(d.timeblocks, TimeBlockKey, t.id)
    ensures Find(UpdateTimeBlock(d, t).timeblocks, TimeBlockKey, t.id) == Some(t)
  {
    FindMapWhere(d.timeblocks, TimeBlockKey, t.id, _ => t);
  }

  lemma UpdateCalendarEventFinds(d: Doc, e: CalendarEvent)
    requires HasId(d.calendarEvents, EventKey, e.id)
    ensures Find(UpdateCalendarEvent(d, e).calendarEvents, EventKey, e.id) == Some(e)
  {
    FindMapWhere(d.calendarEvents, EventKey, e.id, _ => e);
  }

  // ---------------------------------------------------------------------
  // Kanban actions
  // ---------------------------------------------------------------------

  function NewBoard(draft: KanbanBoardDraft, freshId: string): KanbanBoard {
    KanbanBoard(freshId, draft.title, draft.category, draft.columns)
  }

  /** `addKanbanBoard`: the draft under a fresh id, appended. */
  function AddKanbanBoard(d: Doc, draft: KanbanBoardDraft, freshId: string): (r: Doc)
    requires !HasId(d.kanbanBoards, BoardKey, freshId)
    ensures |r.kanbanBoards| == |d.kanbanBoards| + 1 && r.kanbanBoards[..|d.kanbanBoards|] == d.kanbanBoards
    ensures var b := r.kanbanBoards[|d.kanbanBoards|];
            b.id == freshId && b.title == draft.title && b.category == draft.category && b.columns == draft.columns
    ensures r.(kanbanBoards := d.kanbanBoards) == d
  {
    var r := d.(kanbanBoards := d.kanbanBoards + [NewBoard(draft, freshId)]);
    assert r.kanbanBoards[..|d.kanbanBoards|] == d.kanbanBoards;
    r
  }

  /** `{ ...b, ...updates }`: each supplied field overrides, the others stay. */
  function MergeBoard(b: KanbanBoard, patch: BoardPatch): (r: KanbanBoard)
    ensures r.id == (if patch.id.Some? then patch.id.value else b.id)
    ensures r.title == (if patch.title.Some? then patch.title.value else b.title)
    ensures r.category == (if patch.category.Some? then patch.category.value else b.category)
    ensures r.columns == (if patch.columns.Some? then patch.columns.value else b.columns)
    ensures patch == BoardPatch(None, None, None, None) ==> r == b
  {
    KanbanBoard(
      match patch.id case Some(v) => v case None => b.id,
      match patch.title case Some(v) => v case None => b.title,
      match patch.category case Some(v) => v case None => b.category,
      match patch.columns case Some(v) => v case None => b.columns)
  }

  /** `updateKanbanBoard`: merges the patch into every board of that id. */
  function UpdateKanbanBoard(d: Doc, boardId: string, patch: BoardPatch): (r: Doc)
    ensures |r.kanbanBoards| == |d.kanbanBoards|
    ensures forall k :: 0 <= k < |d.kanbanBoards| ==>
              r.kanbanBoards[k] == if d.kanbanBoards[k].id == boardId
                                   then MergeBoard(d.kanbanBoards[k], patch) else d.kanbanBoards[k]
    ensures patch.id.None? || patch.id == Some(boardId) ==>
              Ids(r.kanbanBoards, BoardKey) == Ids(d.kanbanBoards, BoardKey)
    ensures !HasId(d.kanbanBoards, BoardKey, boardId) ==> r == d
    ensures r.(kanbanBoards := d.kanbanBoards) == d
  {
    var r := d.(kanbanBoards := MapWhere(d.kanbanBoards, BoardKey, boardId, b => MergeBoard(b, patch)));
    assert !HasId(d.kanbanBoards, BoardKey, boardId) ==> r.kanbanBoards == d.kanbanBoards;
    r
  }

  /** `deleteKanbanBoard`. */
  function DeleteKanbanBoard(d: Doc, boardId: string): (r: Doc)
    ensures Filtered(r.kanbanBoards, d.kanbanBoards, BoardKey, boardId)
    ensures r.(kanbanBoards := d.kanbanBoards) == d
  {
    RemoveIdFiltered(d.kanbanBoards, BoardKey, boardId);
    d.(kanbanBoards := RemoveId(d.kanbanBoards, BoardKey, boardId))
  }

  lemma AddKanbanBoardThenDelete(d: Doc, draft: KanbanBoardDraft, freshId: string)
    requires !HasId(d.kanbanBoards, BoardKey, freshId)
    ensures DeleteKanbanBoard(AddKanbanBoard(d, draft, freshId), freshId) == d
  {
    RemoveIdAfterAppend(d.kanbanBoards, NewBoard(draft, freshId), BoardKey);
  }

  /** `moveKanbanItem` applied to the document's boards; the board-level
      behaviour is stated in module Kanban. */
  function MoveKanbanItem(d: Doc, itemId: string, sourceId: string, targetId: string, newIndex: int): (r: Doc)
    ensures Ids(r.kanbanBoards, BoardKey) == Ids(d.kanbanBoards, BoardKey)
    ensures forall k :: 0 <= k < |d.kanbanBoards| ==>
              r.kanbanBoards[k] == Kanban.MoveInBoard(d.kanbanBoards[k], itemId, sourceId, targetId, newIndex)
    ensures r.(kanbanBoards := d.kanbanBoards) == d
  {
    d.(kanbanBoards := Kanban.MoveKanbanItem(d.kanbanBoards, itemId, sourceId, targetId, newIndex))
  }

  // ---------------------------------------------------------------------
  // User actions
  // ---------------------------------------------------------------------

  /** `updateUserXP`: moves only the spendable XP. */
  function UpdateUserXP(d: Doc, xp: int): (r: Doc)
    ensures r.user.availableXP == d.user.availableXP + xp
    ensures r.user.(availableXP := d.user.availableXP) == d.user
    ensures r.(user := d.user) == d
  {
    d.(user := d.user.(availableXP := d.user.availableXP + xp))
  }

  // ---------------------------------------------------------------------
  // Invariant preservation
  // ---------------------------------------------------------------------

  /** The default document is well formed when the board ids drawn are distinct. */
  lemma DefaultDocWellFormed(boardIds: seq<string>)
    requires |boardIds| == 3 && UniqueIds(boardIds, (s: string) => s)
    ensures WellFormed(DefaultDoc(boardIds))
  {
    var d := DefaultDoc(boardIds);
    forall i, j | 0 <= i < j < |d.kanbanBoards| ensures d.kanbanBoards[i].id != d.kanbanBoards[j].id {
      assert d.kanbanBoards[i].id == boardIds[i] && d.kanbanBoards[j].id == boardIds[j];
    }
  }

  /** Migration yields a well-formed document exactly when it resets, or when
      what was stored already was one. */
  lemma MigrateWellFormed(persisted: Doc, version: int, boardIds: seq<string>)
    requires |boardIds| == 3 && UniqueIds(boardIds, (s: string) => s)
    ensures WellFormed(Migrate(persisted, version, boardIds)) <==> version == 0 || WellFormed(persisted)
  {
    DefaultDocWellFormed(boardIds);
  }

  /** Completing a quest keeps the document well formed. */
  lemma CompleteQuestKeepsWellFormed(d: Doc, questId: string)
    requires WellFormed(d)
    ensures WellFormed(CompleteQuest(d, questId))
  {
    var r := CompleteQuest(d, questId);
    if HasId(d.quests, QuestKey, questId) {
      SameIdsKeepUnique(d.quests, r.quests, QuestKey);
    }
  }

  /** Adding a quest keeps the document well formed exactly when its reward is non-negative. */
  lemma AddQuestKeepsWellFormed(d: Doc, draft: QuestDraft, freshId: string, today: string)
    requires WellFormed(d) && !HasId(d.quests, QuestKey, freshId)
    ensures WellFormed(AddQuest(d, draft, freshId, today)) <==> draft.xp >= 0
  {
    var r := AddQuest(d, draft, freshId, today);
    forall k | 0 <= k < |d.quests| ensures r.quests[k] == d.quests[k] {
    }
    AppendFreshKeepsUnique(d.quests, NewQuest(draft, freshId, today), QuestKey);
  }

  /** Deleting keeps the document well formed. */
  lemma DeletesKeepWellFormed(d: Doc, id: string)
    requires WellFormed(d)
    ensures WellFormed(DeleteQuest(d, id))
    ensures WellFormed(DeleteMilestone(d, id))
    ensures WellFormed(DeleteTimeBlock(d, id))
    ensures WellFormed(DeleteCalendarEvent(d, id))
    ensures WellFormed(DeleteKanbanBoard(d, id))
  {
    RemoveIdKeepsUnique(d.quests, QuestKey, id);
    RemoveIdMembers(d.quests, QuestKey, id);
    var r := DeleteQuest(d, id).quests;
    forall k | 0 <= k < |r| ensures r[k].xp >= 0 {
      assert r[k] in RemoveId(d.quests, QuestKey, id);
      var m :| 0 <= m < |d.quests| && d.quests[m] == r[k];
    }
    RemoveIdKeepsUnique(d.milestones, MilestoneKey, id);
    RemoveIdKeepsUnique(d.timeblocks, TimeBlockKey, id);
    RemoveIdKeepsUnique(d.calendarEvents, EventKey, id);
    RemoveIdKeepsUnique(d.kanbanBoards, BoardKey, id);
  }

  /** Adding a milestone under an id fresh among milestones keeps the document well formed. */
  lemma AddMilestoneKeepsWellFormed(d: Doc, draft: MilestoneDraft, freshId: string)
    requires WellFormed(d) && !HasId(d.milestones, MilestoneKey, freshId)
    ensures WellFormed(AddMilestone(d, draft, freshId))
  {
    AppendFreshKeepsUnique(d.milestones, NewMilestone(draft, freshId), MilestoneKey);
  }

  /** Adding a time block under an id fresh among time blocks keeps the document well formed. */
  lemma AddTimeBlockKeepsWellFormed(d: Doc, draft: TimeBlockDraft, freshId: string)
    requires WellFormed(d) && !HasId(d.timeblocks, TimeBlockKey, freshId)
    ensures WellFormed(AddTimeBlock(d, draft, freshId))
  {
    AppendFreshKeepsUnique(d.timeblocks, NewTimeBlock(draft, freshId), TimeBlockKey);
  }

  /** Adding an event under an id fresh among events keeps the document well formed. */
  lemma AddCalendarEventKeepsWellFormed(d: Doc, draft: CalendarEventDraft, freshId: string)
    requires WellFormed(d) && !HasId(d.calendarEvents, EventKey, freshId)
    ensures WellFormed(AddCalendarEvent(d, draft, freshId))
  {
    AppendFreshKeepsUnique(d.calendarEvents, NewCalendarEvent(draft, freshId), EventKey);
  }

  /** Adding a board under an id fresh among boards keeps the document well formed. */
  lemma AddKanbanBoardKeepsWellFormed(d: Doc, draft: KanbanBoardDraft, freshId: string)
    requires WellFormed(d) && !HasId(d.kanbanBoards, BoardKey, freshId)
    ensures WellFormed(AddKanbanBoard(d, draft, freshId))
  {
    AppendFreshKeepsUnique(d.kanbanBoards, NewBoard(draft, freshId), BoardKey);
  }

  /** Completing a milestone keeps the document well formed. */
  lemma CompleteMilestoneKeepsWellFormed(d: Doc, milestoneId: string)
    requires WellFormed(d)
    ensures WellFormed(CompleteMilestone(d, milestoneId))
  {
    SameIdsKeepUnique(d.milestones, CompleteMilestone(d, milestoneId).milestones, MilestoneKey);
  }

  /** Replacing a milestone keeps the document well formed. */
  lemma UpdateMilestoneKeepsWellFormed(d: Doc, m: Milestone)
    requires WellFormed(d)
    ensures WellFormed(UpdateMilestone(d, m))
  {
    SameIdsKeepUnique(d.milestones, UpdateMilestone(d, m).milestones, MilestoneKey);
  }

  /** Replacing a time block keeps the document well formed. */
  lemma UpdateTimeBlockKeepsWellFormed(d: Doc, t: TimeBlock)
    requires WellFormed(d)
    ensures WellFormed(UpdateTimeBlock(d, t))
  {
    SameIdsKeepUnique(d.timeblocks, UpdateTimeBlock(d, t).timeblocks, TimeBlockKey);
  }

  /** Replacing an event keeps the document well formed. */
  lemma UpdateCalendarEventKeepsWellFormed(d: Doc, e: CalendarEvent)
    requires WellFormed(d)
    ensures WellFormed(UpdateCalendarEvent(d, e))
  {
    SameIdsKeepUnique(d.calendarEvents, UpdateCalendarEvent(d, e).calendarEvents, EventKey);
  }

  /** Merging a patch into a board keeps the document well formed, as long
      as the patch leaves the id alone. */
  lemma UpdateKanbanBoardKeepsWellFormed(d: Doc, boardId: string, patch: BoardPatch)
    requires WellFormed(d)
    requires patch.id.None? || patch.id == Some(boardId)
    ensures WellFormed(UpdateKanbanBoard(d, boardId, patch))
  {
    SameIdsKeepUnique(d.kanbanBoards, UpdateKanbanBoard(d, boardId, patch).kanbanBoards, BoardKey);
  }

  /** Moving a card keeps the document well formed. */
  lemma MoveKanbanItemKeepsWellFormed(d: Doc, itemId: string, sourceId: string, targetId: string, newIndex: int)
    requires WellFormed(d)
    ensures WellFormed(MoveKanbanItem(d, itemId, sourceId, targetId, newIndex))
  {
    SameIdsKeepUnique(d.kanbanBoards, MoveKanbanItem(d, itemId, sourceId, targetId, newIndex).kanbanBoards, BoardKey);
  }
}
