/** Records of the structured memory: checklists, todos, session notes. */
module MemoryTypes {
  import opened Basics

  /** Stored flat; `parentId` makes it a tree. */
  datatype Item = Item(id: string, parentId: Option<string>, title: string, ordinal: int, details: string)

  datatype Scope = Scope(
    actorId: Option<string>, conversationId: Option<string>, projectId: Option<string>,
    threadId: Option<string>, isGlobal: bool)
  {
    predicate IsEmpty() {
      actorId.None? && conversationId.None? && projectId.None? && threadId.None? && !isGlobal
    }

    predicate OnlyGlobal() {
      actorId.None? && conversationId.None? && projectId.None? && threadId.None? && isGlobal
    }
  }

  /** A record is visible to a query that carries every key the record carries, with the
      same value; a record that is only global is visible to every query. */
  predicate Matches(record: Scope, query: Scope) {
    && !record.IsEmpty()
    && (record.OnlyGlobal()
        || (&& (record.projectId.Some? ==> query.projectId == record.projectId)
            && (record.conversationId.Some? ==> query.conversationId == record.conversationId)
            && (record.actorId.Some? ==> query.actorId == record.actorId)
            && (record.threadId.Some? ==> query.threadId == record.threadId)))
  }

  datatype Record =
    | Checklist(id: string, title: string, scope: Scope, tags: seq<string>, updatedAt: string,
                archivedAt: Option<string>, archived: bool, updatedBy: string, runId: Option<string>,
                slug: string, items: seq<Item>)
    | Todo(id: string, title: string, scope: Scope, tags: seq<string>, updatedAt: string,
           archivedAt: Option<string>, updatedBy: string, runId: Option<string>, content: string)
    | SessionNote(id: string, title: string, scope: Scope, tags: seq<string>, updatedAt: string,
                  archivedAt: Option<string>, archived: bool, updatedBy: string, runId: Option<string>, content: string)
  {
    function Kind(): string {
      match this
      case Checklist(_, _, _, _, _, _, _, _, _, _, _) => "checklist"
      case Todo(_, _, _, _, _, _, _, _, _) => "todo"
      case SessionNote(_, _, _, _, _, _, _, _, _, _) => "session_note"
    }

    predicate IsArchived() {
      archivedAt.Some? || (!Todo? && archived)
    }
  }
}
