/**
 * The handlers that `makeIssueRoutes` registers, each a function of the
 * route's parameters, the session snapshot, the server's answers and the
 * collaborators. A handler's resolution is its outcome together with the
 * requests it issued, in order.
 */
module IssueHandlers {
  import opened Wrappers
  import opened Backend
  import opened Context
  import opened Outcomes
  import opened Quoting

  /** `types.find(t => t.id == typeId)`: the first type with that id, if any. */
  function FindType(types: seq<IssueType>, typeId: int): (r: Option<IssueType>)
    ensures r.None? <==> forall i :: 0 <= i < |types| ==> types[i].id != typeId
    ensures r.Some? ==>
      exists k :: 0 <= k < |types| && types[k] == r.value && types[k].id == typeId &&
        forall j :: 0 <= j < k ==> types[j].id != typeId
  {
    if types == [] then None
    else if types[0].id == typeId then Some(types[0])
    else
      var r := FindType(types[1..], typeId);
      assert r.Some? ==> (exists k :: 0 < k < |types| && types[k] == r.value && types[k].id == typeId &&
                                       forall j :: 0 <= j < k ==> types[j].id != typeId) by {
        if r.Some? {
          var k' :| 0 <= k' < |types| - 1 && types[1..][k'] == r.value && types[1..][k'].id == typeId &&
            forall j :: 0 <= j < k' ==> types[1..][j].id != typeId;
          assert forall j :: 0 <= j < k' + 1 ==> types[j].id != typeId by {
            forall j | 0 <= j < k' + 1 ensures types[j].id != typeId {
              if j > 0 { assert types[j] == types[1..][j - 1]; }
            }
          }
        }
      }
      r
  }

  /** `type.attributes.map(...)`: the initial value of each attribute of a new issue, in order. */
  function InitialAttributes(attributes: seq<AttributeDef>, env: Env): (r: seq<AttributeValue>)
    ensures |r| == |attributes|
    ensures forall i :: 0 <= i < |attributes| ==>
      r[i].id == attributes[i].id && r[i].name == attributes[i].name &&
      r[i].value == env.convertInitialValue(attributes[i].default, attributes[i])
  {
    if attributes == [] then []
    else
      var a := attributes[0];
      [AttributeValue(a.id, a.name, env.convertInitialValue(a.default, a))] + InitialAttributes(attributes[1..], env)
  }

  /** The nullable id of the project or folder selected in the issue list. */
  function ProjectId(project: Option<Project>): (r: Option<int>)
    ensures r.None? <==> project.None?
    ensures project.Some? ==> r == Some(project.value.id)
  {
    match project
    case None => None
    case Some(p) => Some(p.id)
  }

  function FolderId(folder: Option<Folder>): (r: Option<int>)
    ensures r.None? <==> folder.None?
    ensures folder.Some? ==> r == Some(folder.value.id)
  {
    match folder
    case None => None
    case Some(f) => Some(f.id)
  }

  /** `loadIssueDetails` after its store update: dispatch 'issue/load', then show the details. */
  function IssueDetailsResolution(issueId: int, server: Server): (r: Resolution)
    ensures r.requests == [LoadAction(issueId)]
    ensures r.outcome.Shown? <==> server.loadAction(issueId).Ok?
    ensures r.outcome.Shown? ==> r.outcome.view.Component() == "IssueDetails" && r.outcome.view.Size() == Some(Large)
    ensures !r.outcome.Shown? ==> r.outcome == TransportFailed(server.loadAction(issueId).failure)
  {
    Post(LoadAction(issueId), server.loadAction(issueId), (_: ()) => Resolution(Shown(IssueDetailsView), []))
  }

  /** 'GoToItem': shows the form at once. */
  function GoToItem(): (r: Resolution)
    ensures r.requests == []
    ensures r.outcome.Shown? && r.outcome.view.Component() == "GoToItem" && r.outcome.view.Size().None?
  {
    Resolution(Shown(GoToItemView), [])
  }

  /** 'Item': looks up which issue an item belongs to and redirects there; it never shows a view. */
  function Item(itemId: int, server: Server): (r: Resolution)
    ensures r.requests == [Find(itemId)]
    ensures !r.outcome.Shown? && !r.outcome.Failed?
    ensures r.outcome.Redirected? <==> server.find(itemId).Ok?
    ensures server.find(itemId).Ok? ==>
      var issueId := server.find(itemId).value;
      && r.outcome.redirect.issueId == issueId
      && (r.outcome.redirect.Target() == "IssueDetails" <==> issueId == itemId)
      && (issueId != itemId ==> r.outcome.redirect == ReplaceIssueItem(issueId, itemId))
  {
    Post(Find(itemId), server.find(itemId), (issueId: int) =>
      if itemId == issueId then Resolution(Redirected(ReplaceIssueDetails(issueId)), [])
      else Resolution(Redirected(ReplaceIssueItem(issueId, itemId)), []))
  }

  /** 'EditIssue': requires a login, loads the issue with its attribute values, opens the edit form. */
  function EditIssue(issueId: int, session: Session, server: Server): (r: Resolution)
    ensures !session.authenticated ==> r == Reject(LoginRequired)
    ensures session.authenticated ==>
      var query := IssueQuery(issueId, false, true, Unspecified);
      && r.requests == [LoadIssue(query)]
      && (server.loadIssue(query).Ok? ==>
            var reply := server.loadIssue(query).value;
            r.outcome == Shown(EditIssueView(EditingIssue(issueId, reply.details.typeId,
              Some(reply.details.projectId), reply.details.name, reply.attributes))))
  {
    if !session.authenticated then Reject(LoginRequired)
    else
      var query := IssueQuery(issueId, false, true, Unspecified);
      Post(LoadIssue(query), server.loadIssue(query), (reply: IssueReply) =>
        Resolution(Shown(EditIssueView(EditingIssue(issueId, reply.details.typeId,
          Some(reply.details.projectId), reply.details.name, reply.attributes))), []))
  }

  /**
   * 'AddIssue': requires a login and a known type, asks the server nothing,
   * and starts every attribute of the type at its converted default.
   */
  function AddIssue(typeId: int, session: Session, env: Env): (r: Resolution)
    ensures r.requests == []
    ensures !session.authenticated ==> r.outcome == Failed(MakeError(LoginRequired))
    ensures session.authenticated && (forall t :: t in session.types ==> t.id != typeId) ==>
      r.outcome == Failed(MakeError(UnknownType))
    ensures session.authenticated && (exists t :: t in session.types && t.id == typeId) ==>
      && r.outcome.Shown? && r.outcome.view.EditIssueView? && r.outcome.view.issueForm.NewIssue?
      && var form := r.outcome.view.issueForm;
         var t := FindType(session.types, typeId).value;
         && t in session.types && t.id == typeId
         && form.typeId == typeId
         && |form.attributes| == |t.attributes|
         && (forall i :: 0 <= i < |t.attributes| ==>
               form.attributes[i].id == t.attributes[i].id && form.attributes[i].name == t.attributes[i].name &&
               form.attributes[i].value == env.convertInitialValue(t.attributes[i].default, t.attributes[i]))
         && (form.initialProjectId.None? <==> session.project.None?)
         && (session.project.Some? ==> form.initialProjectId == Some(session.project.value.id))
         && (form.initialFolderId.None? <==> session.folder.None?)
         && (session.folder.Some? ==> form.initialFolderId == Some(session.folder.value.id))
         && form.initialFormat == session.defaultFormat
  {
    if !session.authenticated then Reject(LoginRequired)
    else
      match FindType(session.types, typeId)
      case None => Reject(UnknownType)
      case Some(t) =>
        Resolution(Shown(EditIssueView(NewIssue(typeId, ProjectId(session.project), FolderId(session.folder),
          InitialAttributes(t.attributes, env), session.defaultFormat))), [])
  }

  /**
   * 'CloneIssue': requires a login; the copy starts from the issue's details,
   * attribute values and description, or from an empty description in the
   * default format when the issue has none.
   */
  function CloneIssue(issueId: int, session: Session, server: Server): (r: Resolution)
    ensures !session.authenticated ==> r == Reject(LoginRequired)
    ensures session.authenticated ==>
      var query := IssueQuery(issueId, true, true, Unspecified);
      && r.requests == [LoadIssue(query)]
      && (server.loadIssue(query).Ok? ==>
            var reply := server.loadIssue(query).value;
            && r.outcome.Shown? && r.outcome.view.EditIssueView? && r.outcome.view.issueForm.CloningIssue?
            && var form := r.outcome.view.issueForm;
               && form.issueId == issueId && form.typeId == reply.details.typeId
               && form.initialProjectId == Some(reply.details.projectId)
               && form.initialFolderId == Some(reply.details.folderId)
               && form.initialName == reply.details.name && form.attributes == reply.attributes
               && (reply.description.None? ==> form.initialDescription.None? && form.initialFormat == session.defaultFormat)
               && (reply.description.Some? ==>
                     form.initialDescription == Some(reply.description.value.text) &&
                     form.initialFormat == reply.description.value.format))
  {
    if !session.authenticated then Reject(LoginRequired)
    else
      var query := IssueQuery(issueId, true, true, Unspecified);
      Post(LoadIssue(query), server.loadIssue(query), (reply: IssueReply) =>
        var d := reply.details;
        Resolution(Shown(EditIssueView(CloningIssue(issueId, d.typeId, Some(d.projectId), Some(d.folderId), d.name,
          reply.attributes,
          if reply.description.Some? then Some(reply.description.value.text) else None,
          if reply.description.Some? then reply.description.value.format else session.defaultFormat))), []))
  }

  /** 'MoveIssue': loads the issue asking for admin access and shows its placement. */
  function MoveIssue(issueId: int, server: Server): (r: Resolution)
    ensures var query := IssueQuery(issueId, false, false, Admin);
      && r.requests == [LoadIssue(query)]
      && (server.loadIssue(query).Ok? ==>
            var d := server.loadIssue(query).value.details;
            r.outcome == Shown(MoveIssueView(issueId, d.typeId, d.projectId, d.folderId, d.name)))
  {
    var query := IssueQuery(issueId, false, false, Admin);
    Post(LoadIssue(query), server.loadIssue(query), (reply: IssueReply) =>
      var d := reply.details;
      Resolution(Shown(MoveIssueView(issueId, d.typeId, d.projectId, d.folderId, d.name)), []))
  }

  /** 'DeleteIssue': loads the issue asking for admin access and asks to confirm by name. */
  function DeleteIssue(issueId: int, server: Server): (r: Resolution)
    ensures var query := IssueQuery(issueId, false, false, Admin);
      && r.requests == [LoadIssue(query)]
      && (server.loadIssue(query).Ok? ==>
            r.outcome == Shown(DeleteIssueView(issueId, server.loadIssue(query).value.details.name)))
  {
    var query := IssueQuery(issueId, false, false, Admin);
    Post(LoadIssue(query), server.loadIssue(query), (reply: IssueReply) =>
      Resolution(Shown(DeleteIssueView(issueId, reply.details.name)), []))
  }

  /** The load every description route issues: with the description, for the admin or the owner. */
  function DescriptionQuery(issueId: int): IssueQuery
  {
    IssueQuery(issueId, true, false, AdminOrOwner)
  }

  /** 'AddDescription': only an issue without a description gets one, in the default format. */
  function AddDescription(issueId: int, session: Session, server: Server): (r: Resolution)
    ensures r.requests == [LoadIssue(DescriptionQuery(issueId))]
    ensures server.loadIssue(DescriptionQuery(issueId)).Ok? ==>
      var reply := server.loadIssue(DescriptionQuery(issueId)).value;
      && (reply.description.Some? <==> r.outcome == Failed(MakeError(DescriptionAlreadyExists)))
      && (reply.description.None? <==>
            r.outcome == Shown(EditDescriptionView(NewDescription(issueId, reply.details.name, session.defaultFormat))))
  {
    var query := DescriptionQuery(issueId);
    Post(LoadIssue(query), server.loadIssue(query), (reply: IssueReply) =>
      if reply.description.Some? then Reject(DescriptionAlreadyExists)
      else Resolution(Shown(EditDescriptionView(NewDescription(issueId, reply.details.name, session.defaultFormat))), []))
  }

  /**
   * The reply form both reply routes open: a new comment on the issue quoting
   * `text` under `header`, forced to the markup format that quoting needs.
   */
  function QuoteReply(issueId: int, issueName: string, header: string, text: string): (r: Resolution)
    ensures r.requests == []
    ensures r.outcome.Shown? && r.outcome.view.EditCommentView?
    ensures var form := r.outcome.view.commentForm;
      && form.QuotingComment? && form.issueId == issueId && form.issueName == issueName
      && form.initialFormat == TextWithMarkup
      && QuotedText(form.initialComment, header) == Some(text)
  {
    QuotedTextOfQuoteBlock(header, text);
    Resolution(Shown(EditCommentView(QuotingComment(issueId, issueName, QuoteBlock(header, text), TextWithMarkup))), [])
  }

  /** The step of 'ReplyDescription' after the issue is loaded. */
  function QuoteDescription(issueId: int, reply: IssueReply, env: Env): (r: Resolution)
    ensures r.requests == []
    ensures reply.description.None? ==> r.outcome == Failed(MakeError(UnknownDescription))
    ensures reply.description.Some? ==>
      && r.outcome.Shown? && r.outcome.view.EditCommentView?
      && var form := r.outcome.view.commentForm;
         && form.QuotingComment? && form.issueId == issueId && form.issueName == reply.details.name
         && form.initialFormat == TextWithMarkup
         && QuotedText(form.initialComment, env.translate("EditComment.DescriptionQuote", [])) == Some(reply.description.value.text)
  {
    match reply.description
    case None => Reject(UnknownDescription)
    case Some(d) => QuoteReply(issueId, reply.details.name, env.translate("EditComment.DescriptionQuote", []), d.text)
  }

  /**
   * 'ReplyDescription': requires a login and an existing description, and
   * starts a comment quoting it, always in the markup format.
   */
  function ReplyDescription(issueId: int, session: Session, server: Server, env: Env): (r: Resolution)
    ensures !session.authenticated ==> r == Reject(LoginRequired)
    ensures session.authenticated ==>
      var query := IssueQuery(issueId, true, false, Unspecified);
      && r.requests == [LoadIssue(query)]
      && (server.loadIssue(query).Ok? ==>
            var reply := server.loadIssue(query).value;
            && (reply.description.None? <==> r.outcome == Failed(MakeError(UnknownDescription)))
            && (reply.description.Some? ==>
                  && r.outcome.Shown? && r.outcome.view.EditCommentView?
                  && var form := r.outcome.view.commentForm;
                     && form.QuotingComment? && form.issueId == issueId && form.issueName == reply.details.name
                     && form.initialFormat == TextWithMarkup
                     && QuotedText(form.initialComment, env.translate("EditComment.DescriptionQuote", []))
                        == Some(reply.description.value.text)))
  {
    if !session.authenticated then Reject(LoginRequired)
    else
      var query := IssueQuery(issueId, true, false, Unspecified);
      Post(LoadIssue(query), server.loadIssue(query), (reply: IssueReply) => QuoteDescription(issueId, reply, env))
  }

  /** 'EditDescription': requires an existing description and starts from its text and format. */
  function EditDescription(issueId: int, server: Server): (r: Resolution)
    ensures r.requests == [LoadIssue(DescriptionQuery(issueId))]
    ensures server.loadIssue(DescriptionQuery(issueId)).Ok? ==>
      var reply := server.loadIssue(DescriptionQuery(issueId)).value;
      && (reply.description.None? <==> r.outcome == Failed(MakeError(UnknownDescription)))
      && (reply.description.Some? ==>
            r.outcome == Shown(EditDescriptionView(EditingDescription(issueId, reply.details.name,
              reply.description.value.text, reply.description.value.format))))
  {
    var query := DescriptionQuery(issueId);
    Post(LoadIssue(query), server.loadIssue(query), (reply: IssueReply) =>
      match reply.description
      case None => Reject(UnknownDescription)
      case Some(d) =>
        Resolution(Shown(EditDescriptionView(EditingDescription(issueId, reply.details.name, d.text, d.format))), []))
  }

  /** 'DeleteDescription': requires an existing description; a small confirmation view. */
  function DeleteDescription(issueId: int, server: Server): (r: Resolution)
    ensures r.requests == [LoadIssue(DescriptionQuery(issueId))]
    ensures server.loadIssue(DescriptionQuery(issueId)).Ok? ==>
      var reply := server.loadIssue(DescriptionQuery(issueId)).value;
      && (reply.description.None? <==> r.outcome == Failed(MakeError(UnknownDescription)))
      && (reply.description.Some? <==> r.outcome == Shown(DeleteDescriptionView(issueId, reply.details.name)))
  {
    var query := DescriptionQuery(issueId);
    Post(LoadIssue(query), server.loadIssue(query), (reply: IssueReply) =>
      if reply.description.None? then Reject(UnknownDescription)
      else Resolution(Shown(DeleteDescriptionView(issueId, reply.details.name)), []))
  }

  /** The plain load of an issue's details, with no sub-resources and no access level. */
  function PlainQuery(issueId: int): IssueQuery
  {
    IssueQuery(issueId, false, false, Unspecified)
  }

  /** 'AddComment': requires a login; a new comment in the default format. */
  function AddComment(issueId: int, session: Session, server: Server): (r: Resolution)
    ensures !session.authenticated ==> r == Reject(LoginRequired)
    ensures session.authenticated ==>
      && r.requests == [LoadIssue(PlainQuery(issueId))]
      && (server.loadIssue(PlainQuery(issueId)).Ok? ==>
            r.outcome == Shown(EditCommentView(NewComment(issueId,
              server.loadIssue(PlainQuery(issueId)).value.details.name, session.defaultFormat))))
  {
    if !session.authenticated then Reject(LoginRequired)
    else
      Post(LoadIssue(PlainQuery(issueId)), server.loadIssue(PlainQuery(issueId)), (reply: IssueReply) =>
        Resolution(Shown(EditCommentView(NewComment(issueId, reply.details.name, session.defaultFormat))), []))
  }

  /** The header quoting comment `commentId`: `i18n.t('EditComment.CommentQuote', ['#' + commentId])`. */
  function CommentQuoteHeader(commentId: int, env: Env): string
  {
    env.translate("EditComment.CommentQuote", ["#" + IdText(commentId)])
  }

  /** The step of 'ReplyComment' after the issue is loaded: load the comment, then quote it. */
  function QuoteComment(issueId: int, commentId: int, issueName: string, server: Server, env: Env): (r: Resolution)
    ensures var query := CommentQuery(issueId, commentId, Unspecified);
      && r.requests == [LoadComment(query)]
      && (server.loadComment(query).Rejected? ==> r.outcome == TransportFailed(server.loadComment(query).failure))
      && (server.loadComment(query).Ok? ==>
            && r.outcome.Shown? && r.outcome.view.EditCommentView?
            && var form := r.outcome.view.commentForm;
               && form.QuotingComment? && form.issueId == issueId && form.issueName == issueName
               && form.initialFormat == TextWithMarkup
               && QuotedText(form.initialComment, CommentQuoteHeader(commentId, env)) == Some(server.loadComment(query).value.text))
  {
    var query := CommentQuery(issueId, commentId, Unspecified);
    Post(LoadComment(query), server.loadComment(query), (comment: CommentReply) =>
      QuoteReply(issueId, issueName, CommentQuoteHeader(commentId, env), comment.text))
  }

  /**
   * 'ReplyComment': requires a login, loads the issue and only then the
   * comment, and starts a reply quoting the comment's text in the markup
   * format whatever format the comment has.
   */
  function ReplyComment(issueId: int, commentId: int, session: Session, server: Server, env: Env): (r: Resolution)
    ensures !session.authenticated ==> r == Reject(LoginRequired)
    ensures session.authenticated ==>
      var issueLoad := LoadIssue(PlainQuery(issueId));
      var commentQuery := CommentQuery(issueId, commentId, Unspecified);
      && (server.loadIssue(PlainQuery(issueId)).Rejected? ==>
            r == Resolution(TransportFailed(server.loadIssue(PlainQuery(issueId)).failure), [issueLoad]))
      && (server.loadIssue(PlainQuery(issueId)).Ok? ==> r.requests == [issueLoad, LoadComment(commentQuery)])
      && (server.loadIssue(PlainQuery(issueId)).Ok? && server.loadComment(commentQuery).Rejected? ==>
            r.outcome == TransportFailed(server.loadComment(commentQuery).failure))
      && (server.loadIssue(PlainQuery(issueId)).Ok? && server.loadComment(commentQuery).Ok? ==>
            && r.outcome.Shown? && r.outcome.view.EditCommentView?
            && var form := r.outcome.view.commentForm;
               && form.QuotingComment? && form.issueId == issueId
               && form.issueName == server.loadIssue(PlainQuery(issueId)).value.details.name
               && form.initialFormat == TextWithMarkup
               && QuotedText(form.initialComment, CommentQuoteHeader(commentId, env))
                  == Some(server.loadComment(commentQuery).value.text))
  {
    if !session.authenticated then Reject(LoginRequired)
    else
      Post(LoadIssue(PlainQuery(issueId)), server.loadIssue(PlainQuery(issueId)), (reply: IssueReply) =>
        QuoteComment(issueId, commentId, reply.details.name, server, env))
  }

  /** The load of a comment by the edit and delete routes: for the admin or its author. */
  function OwnCommentQuery(issueId: int, commentId: int): CommentQuery
  {
    CommentQuery(issueId, commentId, AdminOrOwner)
  }

  /** 'EditComment': starts from the comment's text and its own format. */
  function EditComment(issueId: int, commentId: int, server: Server): (r: Resolution)
    ensures r.requests == [LoadComment(OwnCommentQuery(issueId, commentId))]
    ensures server.loadComment(OwnCommentQuery(issueId, commentId)).Ok? ==>
      var c := server.loadComment(OwnCommentQuery(issueId, commentId)).value;
      r.outcome == Shown(EditCommentView(EditingComment(issueId, commentId, c.text, c.format)))
  {
    var query := OwnCommentQuery(issueId, commentId);
    Post(LoadComment(query), server.loadComment(query), (c: CommentReply) =>
      Resolution(Shown(EditCommentView(EditingComment(issueId, commentId, c.text, c.format))), []))
  }

  /** 'DeleteComment': checks the comment can be loaded; a small confirmation view. */
  function DeleteComment(issueId: int, commentId: int, server: Server): (r: Resolution)
    ensures r.requests == [LoadComment(OwnCommentQuery(issueId, commentId))]
    ensures r.outcome.Shown? <==> server.loadComment(OwnCommentQuery(issueId, commentId)).Ok?
    ensures r.outcome.Shown? ==> r.outcome.view == DeleteCommentView(issueId, commentId)
  {
    var query := OwnCommentQuery(issueId, commentId);
    Post(LoadComment(query), server.loadComment(query), (_: CommentReply) =>
      Resolution(Shown(DeleteCommentView(issueId, commentId)), []))
  }

  /** 'AddFile': requires a login; the upload form names the issue. */
  function AddFile(issueId: int, session: Session, server: Server): (r: Resolution)
    ensures !session.authenticated ==> r == Reject(LoginRequired)
    ensures session.authenticated ==>
      && r.requests == [LoadIssue(PlainQuery(issueId))]
      && (server.loadIssue(PlainQuery(issueId)).Ok? ==>
            r.outcome == Shown(EditFileView(NewFile(issueId, server.loadIssue(PlainQuery(issueId)).value.details.name))))
  {
    if !session.authenticated then Reject(LoginRequired)
    else
      Post(LoadIssue(PlainQuery(issueId)), server.loadIssue(PlainQuery(issueId)), (reply: IssueReply) =>
        Resolution(Shown(EditFileView(NewFile(issueId, reply.details.name))), []))
  }

  /** The load of an attachment by the edit and delete routes: for the admin or its owner. */
  function OwnFileQuery(issueId: int, fileId: int): FileQuery
  {
    FileQuery(issueId, fileId, AdminOrOwner)
  }

  /** 'EditFile': starts from the attachment's name and description. */
  function EditFile(issueId: int, fileId: int, server: Server): (r: Resolution)
    ensures r.requests == [LoadFile(OwnFileQuery(issueId, fileId))]
    ensures server.loadFile(OwnFileQuery(issueId, fileId)).Ok? ==>
      var f := server.loadFile(OwnFileQuery(issueId, fileId)).value;
      r.outcome == Shown(EditFileView(EditingFile(issueId, fileId, f.name, f.description)))
  {
    var query := OwnFileQuery(issueId, fileId);
    Post(LoadFile(query), server.loadFile(query), (f: FileReply) =>
      Resolution(Shown(EditFileView(EditingFile(issueId, fileId, f.name, f.description))), []))
  }

  /** 'DeleteFile': a small confirmation view naming the attachment. */
  function DeleteFile(issueId: int, fileId: int, server: Server): (r: Resolution)
    ensures r.requests == [LoadFile(OwnFileQuery(issueId, fileId))]
    ensures server.loadFile(OwnFileQuery(issueId, fileId)).Ok? ==>
      r.outcome == Shown(DeleteFileView(issueId, fileId, server.loadFile(OwnFileQuery(issueId, fileId)).value.name))
  {
    var query := OwnFileQuery(issueId, fileId);
    Post(LoadFile(query), server.loadFile(query), (f: FileReply) =>
      Resolution(Shown(DeleteFileView(issueId, fileId, f.name)), []))
  }
}
