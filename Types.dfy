/** Optional values: the model of TypeScript's `field?: T` and `T | null`. */
module Wrappers {
  datatype Option<+T> = None | Some(value: T)
}

/**
 * The entities of the life tracker's document: a user, categories, quests,
 * milestones, time blocks, calendar events and kanban boards.
 * Every numeric field is an unbounded `int`; every date is kept as the
 * string the application stores.
 */
module Types {
  import opened Wrappers

  datatype Streak = Streak(current: int, longest: int, lastCompleted: Option<string>)

  datatype User = User(
    level: int,
    totalXP: int,
    nextLevelXP: int,
    availableXP: int,
    streak: Streak)

  datatype Category = Category(
    id: string,
    name: string,
    icon: string,
    color: string,
    totalXP: int,
    maxXP: int,
    level: int,
    skills: seq<string>)

  datatype Quest = Quest(
    id: string,
    title: string,
    description: string,
    category: string,
    xp: int,
    completed: bool,
    dueDate: string,
    milestoneId: Option<string>,
    timeblocks: Option<seq<string>>)

  /** The fields a caller hands to `addQuest`: a quest without `id` and `completed`.
      An empty `dueDate` stands for an absent one. */
  datatype QuestDraft = QuestDraft(
    title: string,
    description: string,
    category: string,
    xp: int,
    dueDate: string,
    milestoneId: Option<string>,
    timeblocks: Option<seq<string>>)

  datatype Milestone = Milestone(
    id: string,
    title: string,
    description: string,
    category: string,
    xp: int,
    completed: bool,
    dueDate: string,
    quests: seq<string>,
    progress: int)

  /** A milestone without its `id`, as `addMilestone` receives it. */
  datatype MilestoneDraft = MilestoneDraft(
    title: string,
    description: string,
    category: string,
    xp: int,
    completed: bool,
    dueDate: string,
    quests: seq<string>,
    progress: int)

  datatype TimeBlock = TimeBlock(
    id: string,
    title: string,
    start: string,
    end: string,
    questId: Option<string>,
    category: string,
    completed: bool)

  datatype TimeBlockDraft = TimeBlockDraft(
    title: string,
    start: string,
    end: string,
    questId: Option<string>,
    category: string,
    completed: bool)

  datatype EventKind = PlainEvent | TimeBlockEvent | MilestoneEvent

  datatype CalendarEvent = CalendarEvent(
    id: string,
    title: string,
    description: Option<string>,
    start: string,
    end: string,
    allDay: bool,
    category: string,
    kind: EventKind,
    relatedId: Option<string>,
    completed: Option<bool>)

  datatype CalendarEventDraft = CalendarEventDraft(
    title: string,
    description: Option<string>,
    start: string,
    end: string,
    allDay: bool,
    category: string,
    kind: EventKind,
    relatedId: Option<string>,
    completed: Option<bool>)

  datatype ItemKind = QuestItem | MilestoneItem

  datatype Priority = Low | Medium | High

  datatype KanbanItem = KanbanItem(
    id: string,
    title: string,
    description: Option<string>,
    kind: ItemKind,
    relatedId: string,
    category: string,
    dueDate: Option<string>,
    priority: Priority)

  datatype KanbanColumn = KanbanColumn(id: string, title: string, items: seq<KanbanItem>)

  datatype KanbanBoard = KanbanBoard(
    id: string,
    title: string,
    category: string,
    columns: seq<KanbanColumn>)

  datatype KanbanBoardDraft = KanbanBoardDraft(
    title: string,
    category: string,
    columns: seq<KanbanColumn>)

  /** `Partial<KanbanBoard>`: each field is either supplied or left out. */
  datatype BoardPatch = BoardPatch(
    id: Option<string>,
    title: Option<string>,
    category: Option<string>,
    columns: Option<seq<KanbanColumn>>)

  /** The store's whole document. */
  datatype Doc = Doc(
    version: string,
    user: User,
    categories: seq<Category>,
    quests: seq<Quest>,
    milestones: seq<Milestone>,
    timeblocks: seq<TimeBlock>,
    calendarEvents: seq<CalendarEvent>,
    kanbanBoards: seq<KanbanBoard>)

  // Id projections, handed to the generic list operations of module Lists.
  function QuestKey(q: Quest): string { q.id }
  function MilestoneKey(m: Milestone): string { m.id }
  function TimeBlockKey(t: TimeBlock): string { t.id }
  function EventKey(e: CalendarEvent): string { e.id }
  function BoardKey(b: KanbanBoard): string { b.id }
  function ColumnKey(c: KanbanColumn): string { c.id }
  function ItemKey(i: KanbanItem): string { i.id }
  function CategoryKey(c: Category): string { c.id }
}
