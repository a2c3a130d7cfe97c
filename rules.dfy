/**
 * The rules that hold across every route the module registers, each stated
 * against an independent table of what the route is meant to do and proved
 * for every route, every session and every server.
 */
module RouteRules {
  import opened Wrappers
  import opened Backend
  import opened Context
  import opened Outcomes
  import opened IssueRoutes
  import IssueHandlers

  /** The routes that reject an anonymous session before asking the server anything. */
  predicate Gated(name: RouteName)
  {
    name in {EditIssue, AddIssue, CloneIssue, ReplyDescription, AddComment, ReplyComment, AddFile}
  }

  /** The route errors each route can raise. */
  function Raises(name: RouteName): set<ErrorCode>
  {
    match name
    case EditIssue | CloneIssue | AddComment | ReplyComment | AddFile => {LoginRequired}
    case AddIssue => {LoginRequired, UnknownType}
    case AddDescription => {DescriptionAlreadyExists}
    case ReplyDescription => {LoginRequired, UnknownDescription}
    case EditDescription | DeleteDescription => {UnknownDescription}
    case _ => {}
  }

  /** The access level each route asks the server to enforce. */
  function AccessLevel(name: RouteName): Access
  {
    match name
    case MoveIssue | DeleteIssue => Admin
    case AddDescription | EditDescription | DeleteDescription | EditComment | DeleteComment | EditFile | DeleteFile =>
      AdminOrOwner
    case _ => Unspecified
  }

  function AccessOf(request: Request): Access
  {
    match request
    case LoadIssue(q) => q.access
    case LoadComment(q) => q.access
    case LoadFile(q) => q.access
    case _ => Unspecified
  }

  /** The component each route shows when it shows one; 'Item' never shows one, so its entry is empty. */
  function ComponentOf(name: RouteName): string
  {
    match name
    case IssueDetails | IssueItem => "IssueDetails"
    case AddIssue | EditIssue | CloneIssue => "EditIssue"
    case ReplyDescription | AddComment | ReplyComment | EditComment => "EditComment"
    case AddDescription | EditDescription => "EditDescription"
    case AddFile | EditFile => "EditFile"
    case GoToItem => "GoToItem"
    case Item => ""
    case MoveIssue => "MoveIssue"
    case DeleteIssue => "DeleteIssue"
    case DeleteDescription => "DeleteDescription"
    case DeleteComment => "DeleteComment"
    case DeleteFile => "DeleteFile"
    case ClientDownload => "ClientDownload"
  }

  /** The size each route's view asks for, when it asks for one. */
  function SizeOf(name: RouteName): Option<Size>
  {
    match name
    case IssueDetails | IssueItem => Some(Large)
    case DeleteDescription | DeleteComment | DeleteFile => Some(Small)
    case _ => None
  }

  /** The mode each editing route opens its form in. */
  function ModeOf(name: RouteName): Option<Mode>
  {
    match name
    case AddIssue | AddDescription | ReplyDescription | AddComment | ReplyComment | AddFile => Some(Add)
    case EditIssue | EditDescription | EditComment | EditFile => Some(Edit)
    case CloneIssue => Some(Clone)
    case _ => None
  }

  /** `view` is the route's own component, in the route's size and mode. */
  predicate ShowsOwnView(name: RouteName, view: View)
  {
    view.Component() == ComponentOf(name) && view.Size() == SizeOf(name) && view.Mode() == ModeOf(name)
  }

  /** The id a request is about: the item looked up, or the issue loaded. */
  function Subject(request: Request): int
  {
    match request
    case Find(itemId) => itemId
    case LoadIssue(q) => q.issueId
    case LoadComment(q) => q.issueId
    case LoadFile(q) => q.issueId
    case LoadAction(issueId) => issueId
  }

  /** The parameter naming what a route's requests are about. */
  function SubjectParam(name: RouteName): ParamName
  {
    if name == Item then ItemId else IssueId
  }

  /** The most requests a route issues. */
  function MaxRequests(name: RouteName): nat
  {
    if name == ReplyComment then 2 else if name == AddIssue || name == GoToItem then 0 else 1
  }

  /**
   * Everything the tables above say about one resolution `r` of route
   * `name`: the login gate, the errors, the short-circuit on rejection, the
   * requests, the view shown and the redirect.
   */
  ghost predicate FollowsTables(name: RouteName, params: map<ParamName, int>, session: Session, server: Server, r: Resolution)
  {
    && (r.outcome == Failed(MakeError(LoginRequired)) <==> Gated(name) && !session.authenticated)
    && (Gated(name) && !session.authenticated ==> r.requests == [])
    && (r.outcome.Failed? ==> r.outcome.error.reason == "APIError" && r.outcome.error.errorCode in Raises(name))
    && ShortCircuits(server, r)
    && |r.requests| <= MaxRequests(name)
    && (forall i :: 0 <= i < |r.requests| ==>
          && SubjectParam(name) in params
          && Subject(r.requests[i]) == params[SubjectParam(name)]
          && AccessOf(r.requests[i]) == AccessLevel(name))
    && (r.outcome.Shown? ==> ShowsOwnView(name, r.outcome.view))
    && (r.outcome.Redirected? <==> name == Item && ItemId in params && server.find(params[ItemId]).Ok?)
    && (name == Item ==> !r.outcome.Shown?)
  }

  lemma IssueDetailsFollowsTables(params: map<ParamName, int>, session: Session, server: Server, env: Env)
    requires Matched(IssueDetails, params)
    ensures FollowsTables(IssueDetails, params, session, server, IssueHandlers.IssueDetailsResolution(params[IssueId], server))
  {
  }

  lemma IssueItemFollowsTables(params: map<ParamName, int>, session: Session, server: Server, env: Env)
    requires Matched(IssueItem, params)
    ensures FollowsTables(IssueItem, params, session, server, IssueHandlers.IssueDetailsResolution(params[IssueId], server))
  {
  }

  lemma GoToItemFollowsTables(params: map<ParamName, int>, session: Session, server: Server, env: Env)
    requires Matched(GoToItem, params)
    ensures FollowsTables(GoToItem, params, session, server, IssueHandlers.GoToItem())
  {
  }

  lemma ItemFollowsTables(params: map<ParamName, int>, session: Session, server: Server, env: Env)
    requires Matched(Item, params)
    ensures FollowsTables(Item, params, session, server, IssueHandlers.Item(params[ItemId], server))
  {
  }

  lemma EditIssueFollowsTables(params: map<ParamName, int>, session: Session, server: Server, env: Env)
    requires Matched(EditIssue, params)
    ensures FollowsTables(EditIssue, params, session, server, IssueHandlers.EditIssue(params[IssueId], session, server))
  {
  }

  lemma AddIssueFollowsTables(params: map<ParamName, int>, session: Session, server: Server, env: Env)
    requires Matched(AddIssue, params)
    ensures FollowsTables(AddIssue, params, session, server, IssueHandlers.AddIssue(params[TypeId], session, env))
  {
  }

  lemma CloneIssueFollowsTables(params: map<ParamName, int>, session: Session, server: Server, env: Env)
    requires Matched(CloneIssue, params)
    ensures FollowsTables(CloneIssue, params, session, server, IssueHandlers.CloneIssue(params[IssueId], session, server))
  {
  }

  lemma MoveIssueFollowsTables(params: map<ParamName, int>, session: Session, server: Server, env: Env)
    requires Matched(MoveIssue, params)
    ensures FollowsTables(MoveIssue, params, session, server, IssueHandlers.MoveIssue(params[IssueId], server))
  {
  }

  lemma DeleteIssueFollowsTables(params: map<ParamName, int>, session: Session, server: Server, env: Env)
    requires Matched(DeleteIssue, params)
    ensures FollowsTables(DeleteIssue, params, session, server, IssueHandlers.DeleteIssue(params[IssueId], server))
  {
  }

  lemma AddDescriptionFollowsTables(params: map<ParamName, int>, session: Session, server: Server, env: Env)
    requires Matched(AddDescription, params)
    ensures FollowsTables(AddDescription, params, session, server, IssueHandlers.AddDescription(params[IssueId], session, server))
  {
  }

  lemma ReplyDescriptionFollowsTables(params: map<ParamName, int>, session: Session, server: Server, env: Env)
    requires Matched(ReplyDescription, params)
    ensures FollowsTables(ReplyDescription, params, session, server, IssueHandlers.ReplyDescription(params[IssueId], session, server, env))
  {
  }

  lemma EditDescriptionFollowsTables(params: map<ParamName, int>, session: Session, server: Server, env: Env)
    requires Matched(EditDescription, params)
    ensures FollowsTables(EditDescription, params, session, server, IssueHandlers.EditDescription(params[IssueId], server))
  {
  }

  lemma DeleteDescriptionFollowsTables(params: map<ParamName, int>, session: Session, server: Server, env: Env)
    requires Matched(DeleteDescription, params)
    ensures FollowsTables(DeleteDescription, params, session, server, IssueHandlers.DeleteDescription(params[IssueId], server))
  {
  }

  lemma AddCommentFollowsTables(params: map<ParamName, int>, session: Session, server: Server, env: Env)
    requires Matched(AddComment, params)
    ensures FollowsTables(AddComment, params, session, server, IssueHandlers.AddComment(params[IssueId], session, server))
  {
  }

  lemma ReplyCommentFollowsTables(params: map<ParamName, int>, session: Session, server: Server, env: Env)
    requires Matched(ReplyComment, params)
    ensures FollowsTables(ReplyComment, params, session, server, IssueHandlers.ReplyComment(params[IssueId], params[CommentId], session, server, env))
  {
    var issueLoad := server.loadIssue(IssueHandlers.PlainQuery(params[IssueId]));
    var commentLoad := server.loadComment(CommentQuery(params[IssueId], params[CommentId], Unspecified));
    if !session.authenticated {
    } else if issueLoad.Rejected? {
    } else if commentLoad.Rejected? {
    } else {
    }
  }

  lemma EditCommentFollowsTables(params: map<ParamName, int>, session: Session, server: Server, env: Env)
    requires Matched(EditComment, params)
    ensures FollowsTables(EditComment, params, session, server, IssueHandlers.EditComment(params[IssueId], params[CommentId], server))
  {
  }

  lemma DeleteCommentFollowsTables(params: map<ParamName, int>, session: Session, server: Server, env: Env)
    requires Matched(DeleteComment, params)
    ensures FollowsTables(DeleteComment, params, session, server, IssueHandlers.DeleteComment(params[IssueId], params[CommentId], server))
  {
  }

  lemma AddFileFollowsTables(params: map<ParamName, int>, session: Session, server: Server, env: Env)
    requires Matched(AddFile, params)
    ensures FollowsTables(AddFile, params, session, server, IssueHandlers.AddFile(params[IssueId], session, server))
  {
  }

  lemma EditFileFollowsTables(params: map<ParamName, int>, session: Session, server: Server, env: Env)
    requires Matched(EditFile, params)
    ensures FollowsTables(EditFile, params, session, server, IssueHandlers.EditFile(params[IssueId], params[FileId], server))
  {
  }

  lemma DeleteFileFollowsTables(params: map<ParamName, int>, session: Session, server: Server, env: Env)
    requires Matched(DeleteFile, params)
    ensures FollowsTables(DeleteFile, params, session, server, IssueHandlers.DeleteFile(params[IssueId], params[FileId], server))
  {
  }

  /** Every registered route but the desktop-only download follows the tables. */
  lemma RouteFollowsTables(name: RouteName, params: map<ParamName, int>, session: Session, server: Server, env: Env)
    requires name != ClientDownload && Matched(name, params)
    ensures FollowsTables(name, params, session, server, Handle(name, params, session, server, env))
  {
    match name {
      case IssueDetails => IssueDetailsFollowsTables(params, session, server, env);
      case IssueItem => IssueItemFollowsTables(params, session, server, env);
      case GoToItem => GoToItemFollowsTables(params, session, server, env);
      case Item => ItemFollowsTables(params, session, server, env);
      case EditIssue => EditIssueFollowsTables(params, session, server, env);
      case AddIssue => AddIssueFollowsTables(params, session, server, env);
      case CloneIssue => CloneIssueFollowsTables(params, session, server, env);
      case MoveIssue => MoveIssueFollowsTables(params, session, server, env);
      case DeleteIssue => DeleteIssueFollowsTables(params, session, server, env);
      case AddDescription => AddDescriptionFollowsTables(params, session, server, env);
      case ReplyDescription => ReplyDescriptionFollowsTables(params, session, server, env);
      case EditDescription => EditDescriptionFollowsTables(params, session, server, env);
      case DeleteDescription => DeleteDescriptionFollowsTables(params, session, server, env);
      case AddComment => AddCommentFollowsTables(params, session, server, env);
      case ReplyComment => ReplyCommentFollowsTables(params, session, server, env);
      case EditComment => EditCommentFollowsTables(params, session, server, env);
      case DeleteComment => DeleteCommentFollowsTables(params, session, server, env);
      case AddFile => AddFileFollowsTables(params, session, server, env);
      case EditFile => EditFileFollowsTables(params, session, server, env);
      case DeleteFile => DeleteFileFollowsTables(params, session, server, env);
    }
  }

  /**
   * A resolution fails with `LoginRequired` exactly when the route is gated
   * and nobody is logged in, and then no request has been issued.
   */
  lemma LoginRequiredExactlyWhenGated(name: RouteName, params: map<ParamName, int>, session: Session, server: Server, env: Env)
    requires name != ClientDownload && Matched(name, params)
    ensures var r := Handle(name, params, session, server, env);
      && (r.outcome == Failed(MakeError(LoginRequired)) <==> Gated(name) && !session.authenticated)
      && (Gated(name) && !session.authenticated ==> r.requests == [])
  {
    RouteFollowsTables(name, params, session, server, env);
  }

  /** Every route error is an 'APIError' whose code the route's table lists. */
  lemma ErrorsComeFromTheTable(name: RouteName, params: map<ParamName, int>, session: Session, server: Server, env: Env)
    requires name != ClientDownload && Matched(name, params)
    ensures var r := Handle(name, params, session, server, env);
      r.outcome.Failed? ==> r.outcome.error.reason == "APIError" && r.outcome.error.errorCode in Raises(name)
  {
    RouteFollowsTables(name, params, session, server, env);
  }

  /**
   * Requests run one after another and the first rejection ends the
   * resolution, passed on unchanged: no partial view is ever produced.
   */
  lemma RejectionEndsResolution(name: RouteName, params: map<ParamName, int>, session: Session, server: Server, env: Env)
    requires name != ClientDownload && Matched(name, params)
    ensures ShortCircuits(server, Handle(name, params, session, server, env))
  {
    RouteFollowsTables(name, params, session, server, env);
  }

  /**
   * Every request a route issues is about the route's own issue (or, for
   * 'Item', its item), asks for the route's access level, and there are no
   * more of them than the route needs.
   */
  lemma RequestsFollowTheRoute(name: RouteName, params: map<ParamName, int>, session: Session, server: Server, env: Env)
    requires name != ClientDownload && Matched(name, params)
    ensures var r := Handle(name, params, session, server, env);
      && |r.requests| <= MaxRequests(name)
      && (forall i :: 0 <= i < |r.requests| ==>
            && SubjectParam(name) in params
            && Subject(r.requests[i]) == params[SubjectParam(name)]
            && AccessOf(r.requests[i]) == AccessLevel(name))
  {
    RouteFollowsTables(name, params, session, server, env);
  }

  /** Each route shows only its own component, in its own size and mode. */
  lemma ViewsFollowTheRoute(name: RouteName, params: map<ParamName, int>, session: Session, server: Server, env: Env)
    requires name != ClientDownload && Matched(name, params)
    ensures var r := Handle(name, params, session, server, env);
      r.outcome.Shown? ==> ShowsOwnView(name, r.outcome.view)
  {
    RouteFollowsTables(name, params, session, server, env);
  }

  /** Only 'Item' redirects, and it never shows a view. */
  lemma OnlyItemRedirects(name: RouteName, params: map<ParamName, int>, session: Session, server: Server, env: Env)
    requires name != ClientDownload && Matched(name, params)
    ensures var r := Handle(name, params, session, server, env);
      && (r.outcome.Redirected? <==> name == Item && ItemId in params && server.find(params[ItemId]).Ok?)
      && (name == Item ==> !r.outcome.Shown?)
  {
    RouteFollowsTables(name, params, session, server, env);
  }
}
