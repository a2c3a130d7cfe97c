/**
 * The server as the issue routes see it: the requests they post and the replies
 * they read. The transport itself is not modelled; a server is the function
 * that answers each request, either with a reply or with a rejection that the
 * routes pass on untouched.
 */
module Backend {
  import opened Wrappers

  /** Text formats of descriptions and comments. */
  datatype TextFormat = PlainText | TextWithMarkup

  /** The `access` parameter of a load request; `Unspecified` when the route sends none. */
  datatype Access = Unspecified | Admin | AdminOrOwner

  /** A rejected request (network error or server error), opaque to the routes. */
  datatype Failure = Failure(message: string)

  datatype Response<+T> = Ok(value: T) | Rejected(failure: Failure)

  /** Parameters of `/server/api/issues/load.php`. */
  datatype IssueQuery = IssueQuery(issueId: int, description: bool, attributes: bool, access: Access)

  /** Parameters of `/server/api/issues/comments/load.php`. */
  datatype CommentQuery = CommentQuery(issueId: int, commentId: int, access: Access)

  /** Parameters of `/server/api/issues/files/load.php`. */
  datatype FileQuery = FileQuery(issueId: int, fileId: int, access: Access)

  /** One round trip issued while resolving a route. */
  datatype Request =
    | Find(itemId: int)                  // /server/api/issues/find.php
    | LoadIssue(issueQuery: IssueQuery)
    | LoadComment(commentQuery: CommentQuery)
    | LoadFile(fileQuery: FileQuery)
    | LoadAction(issueId: int)           // the store's 'issue/load' action

  datatype Details = Details(typeId: int, projectId: int, folderId: int, name: string)

  datatype Description = Description(text: string, format: TextFormat)

  /** An attribute value of an issue: as the server sends it, and as a new issue form starts it. */
  datatype AttributeValue = AttributeValue(id: int, name: string, value: string)

  /** Reply of issues/load: `description` is null when the issue has none. */
  datatype IssueReply = IssueReply(details: Details, description: Option<Description>, attributes: seq<AttributeValue>)

  datatype CommentReply = CommentReply(text: string, format: TextFormat)

  datatype FileReply = FileReply(name: string, description: string)

  /** The server's answer to every request the routes can issue. */
  datatype Server = Server(
    find: int -> Response<int>,
    loadIssue: IssueQuery -> Response<IssueReply>,
    loadComment: CommentQuery -> Response<CommentReply>,
    loadFile: FileQuery -> Response<FileReply>,
    loadAction: int -> Response<()>)

  function FailureOf<T>(response: Response<T>): (f: Option<Failure>)
    ensures f.None? <==> response.Ok?
    ensures response.Rejected? ==> f == Some(response.failure)
  {
    match response
    case Ok(_) => None
    case Rejected(failure) => Some(failure)
  }

  /** The rejection the server answers `request` with, or None when it succeeds. */
  function StatusOf(server: Server, request: Request): Option<Failure>
  {
    match request
    case Find(itemId) => FailureOf(server.find(itemId))
    case LoadIssue(q) => FailureOf(server.loadIssue(q))
    case LoadComment(q) => FailureOf(server.loadComment(q))
    case LoadFile(q) => FailureOf(server.loadFile(q))
    case LoadAction(issueId) => FailureOf(server.loadAction(issueId))
  }
}
