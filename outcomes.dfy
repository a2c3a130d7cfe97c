/**
 * What resolving a route produces: a view to show, a redirect to another
 * route, a route error built by `makeError`, or the server's rejection passed
 * through; together with the requests issued on the way.
 */
module Outcomes {
  import opened Wrappers
  import opened Backend

  datatype ErrorCode = LoginRequired | UnknownType | DescriptionAlreadyExists | UnknownDescription

  /** The error object `makeError` builds; its message text is not modelled. */
  datatype RouteError = RouteError(reason: string, errorCode: ErrorCode)

  /** `makeError(errorCode)`: an application-level error tagged 'APIError'. */
  function MakeError(code: ErrorCode): (e: RouteError)
    ensures e.reason == "APIError"
    ensures e.errorCode == code
  {
    RouteError("APIError", code)
  }

  datatype Size = Small | Large

  datatype Mode = Add | Edit | Clone

  /** The field sets of the `EditIssue` view, one per mode. */
  datatype IssueForm =
    | EditingIssue(issueId: int, typeId: int, initialProjectId: Option<int>, initialName: string,
                   attributes: seq<AttributeValue>)
    | NewIssue(typeId: int, initialProjectId: Option<int>, initialFolderId: Option<int>,
               attributes: seq<AttributeValue>, initialFormat: TextFormat)
    | CloningIssue(issueId: int, typeId: int, initialProjectId: Option<int>, initialFolderId: Option<int>,
                   initialName: string, attributes: seq<AttributeValue>, initialDescription: Option<string>,
                   initialFormat: TextFormat)

  /** The field sets of the `EditDescription` view. */
  datatype DescriptionForm =
    | NewDescription(issueId: int, issueName: string, initialFormat: TextFormat)
    | EditingDescription(issueId: int, issueName: string, initialDescription: string, initialFormat: TextFormat)

  /** The field sets of the `EditComment` view: a new comment, a reply quoting some text, or an edit. */
  datatype CommentForm =
    | NewComment(issueId: int, issueName: string, initialFormat: TextFormat)
    | QuotingComment(issueId: int, issueName: string, initialComment: string, initialFormat: TextFormat)
    | EditingComment(issueId: int, commentId: int, initialComment: string, initialFormat: TextFormat)

  /** The field sets of the `EditFile` view. */
  datatype FileForm =
    | NewFile(issueId: int, issueName: string)
    | EditingFile(issueId: int, fileId: int, initialName: string, initialDescription: string)

  /** A view descriptor: one constructor per `component` value. */
  datatype View =
    | IssueDetailsView
    | GoToItemView
    | EditIssueView(issueForm: IssueForm)
    | MoveIssueView(issueId: int, typeId: int, initialProjectId: int, initialFolderId: int, name: string)
    | DeleteIssueView(issueId: int, name: string)
    | EditDescriptionView(descriptionForm: DescriptionForm)
    | DeleteDescriptionView(issueId: int, issueName: string)
    | EditCommentView(commentForm: CommentForm)
    | DeleteCommentView(issueId: int, commentId: int)
    | EditFileView(fileForm: FileForm)
    | DeleteFileView(issueId: int, fileId: int, name: string)
  {
    /** The `component` field. */
    function Component(): string
    {
      match this
      case IssueDetailsView => "IssueDetails"
      case GoToItemView => "GoToItem"
      case EditIssueView(_) => "EditIssue"
      case MoveIssueView(_, _, _, _, _) => "MoveIssue"
      case DeleteIssueView(_, _) => "DeleteIssue"
      case EditDescriptionView(_) => "EditDescription"
      case DeleteDescriptionView(_, _) => "DeleteDescription"
      case EditCommentView(_) => "EditComment"
      case DeleteCommentView(_, _) => "DeleteComment"
      case EditFileView(_) => "EditFile"
      case DeleteFileView(_, _, _) => "DeleteFile"
    }

    /** The `size` field, absent on most views. */
    function Size(): Option<Size>
    {
      match this
      case IssueDetailsView => Some(Large)
      case DeleteDescriptionView(_, _) => Some(Small)
      case DeleteCommentView(_, _) => Some(Small)
      case DeleteFileView(_, _, _) => Some(Small)
      case _ => None
    }

    /** The `mode` field of the editing views. */
    function Mode(): Option<Mode>
    {
      match this
      case EditIssueView(f) =>
        Some(match f case EditingIssue(_, _, _, _, _) => Edit case NewIssue(_, _, _, _, _) => Add case CloningIssue(_, _, _, _, _, _, _, _) => Clone)
      case EditDescriptionView(f) => Some(if f.NewDescription? then Add else Edit)
      case EditCommentView(f) => Some(if f.EditingComment? then Edit else Add)
      case EditFileView(f) => Some(if f.NewFile? then Add else Edit)
      case _ => None
    }
  }

  /** `{ replace: 'IssueDetails', issueId }` or `{ replace: 'IssueItem', issueId, itemId }`. */
  datatype Redirect =
    | ReplaceIssueDetails(issueId: int)
    | ReplaceIssueItem(issueId: int, itemId: int)
  {
    /** The `replace` field: the name of the route to resolve instead. */
    function Target(): string
    {
      if ReplaceIssueDetails? then "IssueDetails" else "IssueItem"
    }
  }

  /** Exactly one of the results a route's promise settles with. */
  datatype Outcome =
    | Shown(view: View)
    | Redirected(redirect: Redirect)
    | Failed(error: RouteError)
    | TransportFailed(failure: Failure)

  /** The outcome of one resolution and the requests it issued, in order. */
  datatype Resolution = Resolution(outcome: Outcome, requests: seq<Request>)

  /** `Promise.reject(makeError(code))` before any request. */
  function Reject(code: ErrorCode): Resolution
  {
    Resolution(Failed(MakeError(code)), [])
  }

  /**
   * `ajax.post(...).then(next)`: the request is issued first; a rejection
   * ends the resolution with that very failure, a reply continues with `next`.
   */
  function Post<T>(request: Request, response: Response<T>, next: T -> Resolution): (r: Resolution)
    ensures r.requests != [] && r.requests[0] == request
    ensures response.Rejected? ==> r == Resolution(TransportFailed(response.failure), [request])
    ensures response.Ok? ==>
      r == Resolution(next(response.value).outcome, [request] + next(response.value).requests)
  {
    match response
    case Rejected(failure) => Resolution(TransportFailed(failure), [request])
    case Ok(reply) =>
      var rest := next(reply);
      Resolution(rest.outcome, [request] + rest.requests)
  }

  /**
   * The short-circuit discipline of a resolution against the server that
   * answered it: every request but the last succeeded, and the outcome is a
   * transport failure exactly when the last request was rejected, carrying
   * that rejection unchanged.
   */
  ghost predicate ShortCircuits(server: Server, r: Resolution)
  {
    && (forall i :: 0 <= i < |r.requests| - 1 ==> StatusOf(server, r.requests[i]).None?)
    && (r.outcome.TransportFailed? <==> r.requests != [] && StatusOf(server, r.requests[|r.requests| - 1]).Some?)
    && (r.outcome.TransportFailed? ==> StatusOf(server, r.requests[|r.requests| - 1]) == Some(r.outcome.failure))
  }
}
