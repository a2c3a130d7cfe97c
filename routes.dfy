/**
 * The routes `issueRoutes` registers: their names and path patterns in
 * registration order, the dispatch from a matched route to its handler, and
 * the rules that hold across all of them (the login gate, which errors a
 * route can raise, the access level it asks for, and how a rejected request
 * ends a resolution).
 */
module IssueRoutes {
  import opened Wrappers
  import opened Backend
  import opened Context
  import opened Outcomes
  import IssueHandlers
  import IssueStore

  datatype RouteName =
    | IssueDetails | IssueItem | GoToItem | Item
    | EditIssue | AddIssue | CloneIssue | MoveIssue | DeleteIssue
    | AddDescription | ReplyDescription | EditDescription | DeleteDescription
    | AddComment | ReplyComment | EditComment | DeleteComment
    | AddFile | EditFile | DeleteFile
    | ClientDownload

  /** The parameters the patterns name. */
  datatype ParamName = IssueId | ItemId | TypeId | CommentId | FileId

  /**
   * A path pattern read from the left, one segment at a time: a literal
   * segment, or a `:name` parameter segment. `/issues/:issueId/edit` is
   * `Literal("issues", Param(IssueId, Literal("edit", End)))`.
   */
  datatype Pattern = End | Literal(text: string, rest: Pattern) | Param(name: ParamName, rest: Pattern)

  /** `/issues/:issueId` followed by `rest`. */
  function IssuePath(rest: Pattern): Pattern
  {
    Literal("issues", Param(IssueId, rest))
  }

  /** The pattern each route is registered with. */
  function PatternOf(name: RouteName): Pattern
  {
    match name
    case IssueDetails => IssuePath(End)
    case IssueItem => IssuePath(Literal("items", Param(ItemId, End)))
    case GoToItem => Literal("items", Literal("goto", End))
    case Item => Literal("items", Param(ItemId, End))
    case EditIssue => IssuePath(Literal("edit", End))
    case AddIssue => Literal("types", Param(TypeId, Literal("issues", Literal("add", End))))
    case CloneIssue => IssuePath(Literal("clone", End))
    case MoveIssue => IssuePath(Literal("move", End))
    case DeleteIssue => IssuePath(Literal("delete", End))
    case AddDescription => IssuePath(Literal("description", Literal("add", End)))
    case ReplyDescription => IssuePath(Literal("description", Literal("reply", End)))
    case EditDescription => IssuePath(Literal("description", Literal("edit", End)))
    case DeleteDescription => IssuePath(Literal("description", Literal("delete", End)))
    case AddComment => IssuePath(Literal("comments", Literal("add", End)))
    case ReplyComment => IssuePath(Literal("comments", Param(CommentId, Literal("reply", End))))
    case EditComment => IssuePath(Literal("comments", Param(CommentId, Literal("edit", End))))
    case DeleteComment => IssuePath(Literal("comments", Param(CommentId, Literal("delete", End))))
    case AddFile => IssuePath(Literal("files", Literal("add", End)))
    case EditFile => IssuePath(Literal("files", Param(FileId, Literal("edit", End))))
    case DeleteFile => IssuePath(Literal("files", Param(FileId, Literal("delete", End))))
    case ClientDownload => IssuePath(Literal("files", Param(FileId, Literal("download", End))))
  }

  /** The names of the parameters a pattern captures, in order. */
  function Captures(pattern: Pattern): seq<ParamName>
  {
    match pattern
    case End => []
    case Literal(_, rest) => Captures(rest)
    case Param(name, rest) => [name] + Captures(rest)
  }

  /** The parameters each handler reads from the matched path. */
  function HandlerParams(name: RouteName): seq<ParamName>
  {
    match name
    case GoToItem => []
    case Item => [ItemId]
    case AddIssue => [TypeId]
    case IssueItem => [IssueId, ItemId]
    case ReplyComment | EditComment | DeleteComment => [IssueId, CommentId]
    case EditFile | DeleteFile | ClientDownload => [IssueId, FileId]
    case _ => [IssueId]
  }

  /**
   * Each pattern captures exactly the parameters its handler reads, in the
   * order of the path.
   */
  lemma PatternsCaptureHandlerParams(name: RouteName)
    ensures Captures(PatternOf(name)) == HandlerParams(name)
  {
    match name {
      case IssueDetails =>
      case IssueItem =>
      case GoToItem =>
      case Item =>
      case EditIssue =>
      case AddIssue =>
      case CloneIssue =>
      case MoveIssue =>
      case DeleteIssue =>
      case AddDescription =>
      case ReplyDescription =>
      case EditDescription =>
      case DeleteDescription =>
      case AddComment =>
      case ReplyComment =>
      case EditComment =>
      case DeleteComment =>
      case AddFile =>
      case EditFile =>
      case DeleteFile =>
      case ClientDownload =>
    }
  }

  /** The routes in the order they are registered; 'ClientDownload' only in the desktop build. */
  function Registered(electron: bool): seq<RouteName>
  {
    [IssueDetails, IssueItem, GoToItem, Item, EditIssue, AddIssue, CloneIssue, MoveIssue, DeleteIssue,
     AddDescription, ReplyDescription, EditDescription, DeleteDescription,
     AddComment, ReplyComment, EditComment, DeleteComment, AddFile, EditFile, DeleteFile]
    + (if electron then [ClientDownload] else [])
  }

  /** Position of a route in the registration order. */
  function Ordinal(name: RouteName): nat
  {
    match name
    case IssueDetails => 0 case IssueItem => 1 case GoToItem => 2 case Item => 3
    case EditIssue => 4 case AddIssue => 5 case CloneIssue => 6 case MoveIssue => 7 case DeleteIssue => 8
    case AddDescription => 9 case ReplyDescription => 10 case EditDescription => 11 case DeleteDescription => 12
    case AddComment => 13 case ReplyComment => 14 case EditComment => 15 case DeleteComment => 16
    case AddFile => 17 case EditFile => 18 case DeleteFile => 19 case ClientDownload => 20
  }

  /**
   * No name is registered twice, and every route but 'ClientDownload' is
   * registered in every build.
   */
  lemma RegisteredNamesDistinct(electron: bool)
    ensures var t := Registered(electron); forall i, j :: 0 <= i < j < |t| ==> t[i] != t[j]
    ensures forall name :: name in Registered(electron) <==> name != ClientDownload || electron
  {
    var t := Registered(electron);
    forall i | 0 <= i < |t| ensures Ordinal(t[i]) == i {
    }
    forall name ensures name in t <==> name != ClientDownload || electron {
      if name != ClientDownload || electron {
        assert t[Ordinal(name)] == name;
      }
    }
  }

  /**
   * The path has captured every parameter the handler reads, which by
   * `PatternsCaptureHandlerParams` are the parameters its pattern names.
   */
  predicate Matched(name: RouteName, params: map<ParamName, int>)
  {
    forall p :: p in HandlerParams(name) ==> p in params
  }

  /**
   * The handler registered under `name`, applied to the captured
   * parameters. For 'IssueDetails' and 'IssueItem' this is the part of
   * `loadIssueDetails` after its update of the issue slot.
   */
  function Handle(name: RouteName, params: map<ParamName, int>, session: Session, server: Server, env: Env): Resolution
    requires name != ClientDownload
    requires Matched(name, params)
  {
    match name
    case IssueDetails => IssueHandlers.IssueDetailsResolution(params[IssueId], server)
    case IssueItem => IssueHandlers.IssueDetailsResolution(params[IssueId], server)
    case GoToItem => IssueHandlers.GoToItem()
    case Item => IssueHandlers.Item(params[ItemId], server)
    case EditIssue => IssueHandlers.EditIssue(params[IssueId], session, server)
    case AddIssue => IssueHandlers.AddIssue(params[TypeId], session, env)
    case CloneIssue => IssueHandlers.CloneIssue(params[IssueId], session, server)
    case MoveIssue => IssueHandlers.MoveIssue(params[IssueId], server)
    case DeleteIssue => IssueHandlers.DeleteIssue(params[IssueId], server)
    case AddDescription => IssueHandlers.AddDescription(params[IssueId], session, server)
    case ReplyDescription => IssueHandlers.ReplyDescription(params[IssueId], session, server, env)
    case EditDescription => IssueHandlers.EditDescription(params[IssueId], server)
    case DeleteDescription => IssueHandlers.DeleteDescription(params[IssueId], server)
    case AddComment => IssueHandlers.AddComment(params[IssueId], session, server)
    case ReplyComment => IssueHandlers.ReplyComment(params[IssueId], params[CommentId], session, server, env)
    case EditComment => IssueHandlers.EditComment(params[IssueId], params[CommentId], server)
    case DeleteComment => IssueHandlers.DeleteComment(params[IssueId], params[CommentId], server)
    case AddFile => IssueHandlers.AddFile(params[IssueId], session, server)
    case EditFile => IssueHandlers.EditFile(params[IssueId], params[FileId], server)
    case DeleteFile => IssueHandlers.DeleteFile(params[IssueId], params[FileId], server)
  }

  /**
   * Resolving a matched route: the two detail routes first bring the issue
   * slot to the requested issue; no other route touches it.
   */
  method Resolve(slot: IssueStore.IssueSlot, name: RouteName, params: map<ParamName, int>,
                 session: Session, server: Server, env: Env) returns (r: Resolution)
    requires name != ClientDownload
    requires Matched(name, params)
    modifies slot
    ensures r == Handle(name, params, session, server, env)
    ensures name == IssueDetails || name == IssueItem ==>
      && IssueId in params
      && slot.history == old(slot.history) + IssueStore.MutationsFor(old(slot.issueId), params[IssueId])
      && slot.State() == IssueStore.AfterLoad(old(slot.State()), params[IssueId], server)
    ensures name != IssueDetails && name != IssueItem ==> unchanged(slot)
  {
    if name == IssueDetails || name == IssueItem {
      r := slot.LoadIssueDetails(params[IssueId], server);
    } else {
      r := Handle(name, params, session, server, env);
    }
  }
}
