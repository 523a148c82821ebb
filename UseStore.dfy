/**
 * The store object itself: one mutable record whose fields each action
 * overwrites, as zustand's `set()` does, with the new slices computed by
 * the functions of module Store.
 */
module UseStore {
  import opened Wrappers
  import opened Types
  import opened Lists
  import Store
  import Kanban

  class AppState {
    var version: string
    var user: User
    var categories: seq<Category>
    var quests: seq<Quest>
    var milestones: seq<Milestone>
    var timeblocks: seq<TimeBlock>
    var calendarEvents: seq<CalendarEvent>
    var kanbanBoards: seq<KanbanBoard>

    /** The document the store holds now. */
    function Snapshot(): Doc
      reads this
    {
      Doc(version, user, categories, quests, milestones, timeblocks, calendarEvents, kanbanBoards)
    }

    ghost predicate Valid()
      reads this
    {
      Store.WellFormed(Snapshot())
    }

    /** The store as `create` builds it; `boardIds` are the ids drawn for
        the three default boards. */
    constructor (boardIds: seq<string>)
      requires |boardIds| == 3
      ensures Snapshot() == Store.DefaultDoc(boardIds)
      ensures UniqueIds(boardIds, (s: string) => s) ==> Valid()
    {
      var d := Store.DefaultDoc(boardIds);
      version, user, categories, quests := d.version, d.user, d.categories, d.quests;
      milestones, timeblocks, calendarEvents, kanbanBoards := d.milestones, d.timeblocks, d.calendarEvents, d.kanbanBoards;
      new;
      if UniqueIds(boardIds, (s: string) => s) {
        Store.DefaultDocWellFormed(boardIds);
      }
    }

    /** Loading a persisted envelope: its document passes through `migrate`. */
    method Rehydrate(persisted: Doc, envelopeVersion: int, boardIds: seq<string>)
      requires |boardIds| == 3
      modifies this
      ensures Snapshot() == Store.Migrate(persisted, envelopeVersion, boardIds)
      ensures UniqueIds(boardIds, (s: string) => s) ==>
                (Valid() <==> envelopeVersion == 0 || Store.WellFormed(persisted))
    {
      var d := Store.Migrate(persisted, envelopeVersion, boardIds);
      version, user, categories, quests := d.version, d.user, d.categories, d.quests;
      milestones, timeblocks, calendarEvents, kanbanBoards := d.milestones, d.timeblocks, d.calendarEvents, d.kanbanBoards;
      if UniqueIds(boardIds, (s: string) => s) {
        Store.MigrateWellFormed(persisted, envelopeVersion, boardIds);
      }
    }

    method AddQuest(draft: QuestDraft, freshId: string, today: string)
      requires !HasId(quests, QuestKey, freshId)
      modifies this
      ensures Snapshot() == Store.AddQuest(old(Snapshot()), draft, freshId, today)
      ensures old(Valid()) && draft.xp >= 0 ==> Valid()
    {
      ghost var before := Snapshot();
      quests := quests + [Store.NewQuest(draft, freshId, today)];
      if Store.WellFormed(before) { Store.AddQuestKeepsWellFormed(before, draft, freshId, today); }
    }

    method CompleteQuest(questId: string)
      requires Store.CanComplete(Snapshot(), questId)
      modifies this
      ensures Snapshot() == Store.CompleteQuest(old(Snapshot()), questId)
      ensures old(Valid()) ==> Valid()
    {
      ghost var before := Snapshot();
      var d := Store.CompleteQuest(Snapshot(), questId);
      quests, categories, user := d.quests, d.categories, d.user;
      if Store.WellFormed(before) { Store.CompleteQuestKeepsWellFormed(before, questId); }
    }

    method DeleteQuest(questId: string)
      modifies this
      ensures Snapshot() == Store.DeleteQuest(old(Snapshot()), questId)
      ensures old(Valid()) ==> Valid()
    {
      ghost var before := Snapshot();
      quests := RemoveId(quests, QuestKey, questId);
      if Store.WellFormed(before) { Store.DeletesKeepWellFormed(before, questId); }
    }

    method AddMilestone(draft: MilestoneDraft, freshId: string)
      requires !HasId(milestones, MilestoneKey, freshId)
      modifies this
      ensures Snapshot() == Store.AddMilestone(old(Snapshot()), draft, freshId)
      ensures old(Valid()) ==> Valid()
    {
      ghost var before := Snapshot();
      milestones := milestones + [Store.NewMilestone(draft, freshId)];
      if Store.WellFormed(before) { Store.AddMilestoneKeepsWellFormed(before, draft, freshId); }
    }

    method CompleteMilestone(milestoneId: string)
      modifies this
      ensures Snapshot() == Store.CompleteMilestone(old(Snapshot()), milestoneId)
      ensures old(Valid()) ==> Valid()
    {
      ghost var before := Snapshot();
      milestones := MapWhere(milestones, MilestoneKey, milestoneId, Store.MarkMilestoneDone);
      if Store.WellFormed(before) { Store.CompleteMilestoneKeepsWellFormed(before, milestoneId); }
    }

    method DeleteMilestone(milestoneId: string)
      modifies this
      ensures Snapshot() == Store.DeleteMilestone(old(Snapshot()), milestoneId)
      ensures old(Valid()) ==> Valid()
    {
      ghost var before := Snapshot();
      milestones := RemoveId(milestones, MilestoneKey, milestoneId);
      if Store.WellFormed(before) { Store.DeletesKeepWellFormed(before, milestoneId); }
    }

    method UpdateMilestone(m: Milestone)
      modifies this
      ensures Snapshot() == Store.UpdateMilestone(old(Snapshot()), m)
      ensures old(Valid()) ==> Valid()
    {
      ghost var before := Snapshot();
      milestones := MapWhere(milestones, MilestoneKey, m.id, _ => m);
      if Store.WellFormed(before) { Store.UpdateMilestoneKeepsWellFormed(before, m); }
    }

    method AddTimeBlock(draft: TimeBlockDraft, freshId: string)
      requires !HasId(timeblocks, TimeBlockKey, freshId)
      modifies this
      ensures Snapshot() == Store.AddTimeBlock(old(Snapshot()), draft, freshId)
      ensures old(Valid()) ==> Valid()
    {
      ghost var before := Snapshot();
      timeblocks := timeblocks + [Store.NewTimeBlock(draft, freshId)];
      if Store.WellFormed(before) { Store.AddTimeBlockKeepsWellFormed(before, draft, freshId); }
    }

    method UpdateTimeBlock(t: TimeBlock)
      modifies this
      ensures Snapshot() == Store.UpdateTimeBlock(old(Snapshot()), t)
      ensures old(Valid()) ==> Valid()
    {
      ghost var before := Snapshot();
      timeblocks := MapWhere(timeblocks, TimeBlockKey, t.id, _ => t);
      if Store.WellFormed(before) { Store.UpdateTimeBlockKeepsWellFormed(before, t); }
    }

    method DeleteTimeBlock(timeblockId: string)
      modifies this
      ensures Snapshot() == Store.DeleteTimeBlock(old(Snapshot()), timeblockId)
      ensures old(Valid()) ==> Valid()
    {
      ghost var before := Snapshot();
      timeblocks := RemoveId(timeblocks, TimeBlockKey, timeblockId);
      if Store.WellFormed(before) { Store.DeletesKeepWellFormed(before, timeblockId); }
    }

    method AddCalendarEvent(draft: CalendarEventDraft, freshId: string)
      requires !HasId(calendarEvents, EventKey, freshId)
      modifies this
      ensures Snapshot() == Store.AddCalendarEvent(old(Snapshot()), draft, freshId)
      ensures old(Valid()) ==> Valid()
    {
      ghost var before := Snapshot();
      calendarEvents := calendarEvents + [Store.NewCalendarEvent(draft, freshId)];
      if Store.WellFormed(before) { Store.AddCalendarEventKeepsWellFormed(before, draft, freshId); }
    }

    method UpdateCalendarEvent(e: CalendarEvent)
      modifies this
      ensures Snapshot() == Store.UpdateCalendarEvent(old(Snapshot()), e)
      ensures old(Valid()) ==> Valid()
    {
      ghost var before := Snapshot();
      calendarEvents := MapWhere(calendarEvents, EventKey, e.id, _ => e);
      if Store.WellFormed(before) { Store.UpdateCalendarEventKeepsWellFormed(before, e); }
    }

    method DeleteCalendarEvent(eventId: string)
      modifies this
      ensures Snapshot() == Store.DeleteCalendarEvent(old(Snapshot()), eventId)
      ensures old(Valid()) ==> Valid()
    {
      ghost var before := Snapshot();
      calendarEvents := RemoveId(calendarEvents, EventKey, eventId);
      if Store.WellFormed(before) { Store.DeletesKeepWellFormed(before, eventId); }
    }

    method AddKanbanBoard(draft: KanbanBoardDraft, freshId: string)
      requires !HasId(kanbanBoards, BoardKey, freshId)
      modifies this
      ensures Snapshot() == Store.AddKanbanBoard(old(Snapshot()), draft, freshId)
      ensures old(Valid()) ==> Valid()
    {
      ghost var before := Snapshot();
      kanbanBoards := kanbanBoards + [Store.NewBoard(draft, freshId)];
      if Store.WellFormed(before) { Store.AddKanbanBoardKeepsWellFormed(before, draft, freshId); }
    }

    method UpdateKanbanBoard(boardId: string, patch: BoardPatch)
      modifies this
      ensures Snapshot() == Store.UpdateKanbanBoard(old(Snapshot()), boardId, patch)
      ensures old(Valid()) && (patch.id.None? || patch.id == Some(boardId)) ==> Valid()
    {
      ghost var before := Snapshot();
      kanbanBoards := MapWhere(kanbanBoards, BoardKey, boardId, b => Store.MergeBoard(b, patch));
      if Store.WellFormed(before) && (patch.id.None? || patch.id == Some(boardId)) { Store.UpdateKanbanBoardKeepsWellFormed(before, boardId, patch); }
    }

    method DeleteKanbanBoard(boardId: string)
      modifies this
      ensures Snapshot() == Store.DeleteKanbanBoard(old(Snapshot()), boardId)
      ensures old(Valid()) ==> Valid()
    {
      ghost var before := Snapshot();
      kanbanBoards := RemoveId(kanbanBoards, BoardKey, boardId);
      if Store.WellFormed(before) { Store.DeletesKeepWellFormed(before, boardId); }
    }

    method MoveKanbanItem(itemId: string, sourceId: string, targetId: string, newIndex: int)
      modifies this
      ensures Snapshot() == Store.MoveKanbanItem(old(Snapshot()), itemId, sourceId, targetId, newIndex)
      ensures old(Valid()) ==> Valid()
    {
      ghost var before := Snapshot();
      kanbanBoards := Kanban.MoveKanbanItem(kanbanBoards, itemId, sourceId, targetId, newIndex);
      if Store.WellFormed(before) { Store.MoveKanbanItemKeepsWellFormed(before, itemId, sourceId, targetId, newIndex); }
    }

    method UpdateUserXP(xp: int)
      modifies this
      ensures Snapshot() == Store.UpdateUserXP(old(Snapshot()), xp)
      ensures old(Valid()) ==> Valid()
    {
      user := user.(availableXP := user.availableXP + xp);
    }
  }
}
