# WebIssues issue routes

This project models the client-side route handlers of the WebIssues issue
tracker, as defined in `src/routes/issue.js`. `makeIssueRoutes` registers
one handler per named route, from `IssueDetails` to `DeleteFile`, plus
`ClientDownload` in the desktop build. A handler takes the parameters
captured from the path, the state of the client store and the answers of
the server. Its promise settles with exactly one of these:

- a view descriptor (a `component` and its fields);
- a redirect to another route (`{ replace: ... }`);
- a route error built by `makeError` (reason `'APIError'` and an error code);
- the server's own rejection, passed through.

The model is written in Dafny. Its parts:

- `Backend`: the server endpoints the handlers call. A `Server` is a value
  holding one total function per endpoint. Each function answers with a
  reply or a rejection.
- `Context`: the session snapshot the handlers read (login, issue types,
  selected project and folder, default format), and the `i18n.t` and
  `parser.convertInitialValue` collaborators as function-valued fields.
- `Outcomes`: views, redirects, route errors and the `Resolution` of a
  route. A `Resolution` is the outcome together with the requests issued,
  in order. It also holds `Post`, which models `ajax.post(...).then(...)`.
- `Quoting`: the `[quote ...]` block the two reply routes build, and the
  decimal text of a comment id.
- `IssueHandlers`: one function per route handler.
- `IssueStore`: the store's `issue` slot, modelled as a class. Its
  `LoadIssueDetails` method models `loadIssueDetails`. The method commits
  'issue/clear' and 'issue/setIssueId' only when the slot holds a
  different issue.
- `IssueRoutes`: the registration table (names, path patterns, the
  desktop-only route), the dispatch from a route name to its handler, and
  `Resolve`, which also updates the issue slot.
- `RouteRules`: fixed tables of what each route may do, and proofs that
  every route follows them for every session and every server. The tables
  cover the login gate, the errors it may raise, the access level it asks
  for, the requests it issues, the view it shows and the redirect.

Ids are unbounded integers. JavaScript's loose `==` and `!=` between ids
become integer equality.

## Model

| member | source | states |
|---|---|---|
| Outcomes.MakeError | src/routes/issue.js:313-318 | the error is tagged reason 'APIError' and carries the given code |
| Outcomes.Post | src/routes/issue.js:217-228 | the request is issued first; a rejection ends the resolution with that failure and no further request; a reply continues with the next step, whose requests follow |
| Quoting.QuotedText | src/routes/issue.js:166 | any text it reads back from a block is the text that block quotes under that header |
| Quoting.QuotedTextOfQuoteBlock | src/routes/issue.js:166 | the quoted text is recovered verbatim from the reply's initial comment, whatever characters it contains |
| Quoting.QuoteBlockInjective | src/routes/issue.js:224 | two quote blocks with one header are equal only when they quote the same text |
| Quoting.NatText | src/routes/issue.js:224 | the text of a non-negative id is non-empty, all decimal digits, with no leading zero |
| Quoting.DecimalValueOfNatText | src/routes/issue.js:224 | reading the digits back gives the id |
| Quoting.IdText | src/routes/issue.js:224 | `'#' + commentId` renders a non-empty text that starts with '-' exactly when the id is negative; the rest is decimal digits whose value is the id's magnitude |
| Quoting.NatTextInjective | src/routes/issue.js:224 | distinct non-negative ids render differently |
| Quoting.IdTextInjective | src/routes/issue.js:224 | distinct ids render differently, so the quote header names one comment |
| IssueHandlers.FindType | src/routes/issue.js:76-78 | None exactly when no type has the id; otherwise the first type with that id |
| IssueHandlers.InitialAttributes | src/routes/issue.js:83-87 | one value per attribute of the type, in order, keeping id and name, with the value converted from the attribute's default |
| IssueHandlers.ProjectId | src/routes/issue.js:79-80 | null exactly when no project is selected, otherwise that project's id |
| IssueHandlers.FolderId | src/routes/issue.js:81-82 | null exactly when no folder is selected, otherwise that folder's id |
| IssueHandlers.IssueDetailsResolution | src/routes/issue.js:31-33 | the only request is the 'issue/load' action; the 'IssueDetails' view in the large size is shown exactly when it succeeds, and its failure is passed on otherwise |
| IssueHandlers.GoToItem | src/routes/issue.js:44-46 | no request; shows the 'GoToItem' view with no size |
| IssueHandlers.Item | src/routes/issue.js:48-55 | one find request; never a view or a route error; redirects exactly when the find succeeds, to 'IssueDetails' exactly when the found issue id equals the item id, and otherwise to 'IssueItem' with both ids |
| IssueHandlers.EditIssue | src/routes/issue.js:57-71 | LoginRequired with no request when logged out; otherwise one load with attributes, and the edit form carries the loaded type, project, name and attribute values |
| IssueHandlers.AddIssue | src/routes/issue.js:73-97 | no request ever; LoginRequired when logged out; UnknownType when no type has the id; otherwise the add form with one converted default per attribute in order, a project and folder id that are null exactly when none is selected, and the default format |
| IssueHandlers.CloneIssue | src/routes/issue.js:99-116 | LoginRequired with no request when logged out; otherwise one load with description and attributes; the clone form copies details and attributes; with no description it has none and the default format, otherwise the description's text and format |
| IssueHandlers.MoveIssue | src/routes/issue.js:118-129 | one load asking for admin access; the move view carries the loaded type, project, folder and name |
| IssueHandlers.DeleteIssue | src/routes/issue.js:131-139 | one load asking for admin access; the delete view carries the issue's name |
| IssueHandlers.AddDescription | src/routes/issue.js:141-153 | one load with the description for the admin or owner; DescriptionAlreadyExists exactly when a description exists, and the add form in the default format exactly when none does |
| IssueHandlers.QuoteReply | src/routes/issue.js:161-168 | no request; a new comment on the issue in the markup format whose initial text quotes exactly the given text under the given header |
| IssueHandlers.QuoteDescription | src/routes/issue.js:158-169 | no request; UnknownDescription when the issue has no description; otherwise a new comment on the issue, named after it, in the markup format, whose initial text reads back as exactly the description under the translated 'EditComment.DescriptionQuote' header |
| IssueHandlers.ReplyDescription | src/routes/issue.js:155-170 | LoginRequired with no request when logged out; otherwise one load with the description; UnknownDescription exactly when there is none; otherwise a reply in the markup format quoting the description text |
| IssueHandlers.EditDescription | src/routes/issue.js:172-185 | one load for the admin or owner; UnknownDescription exactly when there is none; otherwise the edit form with the description's text and format |
| IssueHandlers.DeleteDescription | src/routes/issue.js:187-198 | one load for the admin or owner; UnknownDescription exactly when there is none, and the small delete view exactly when there is one |
| IssueHandlers.AddComment | src/routes/issue.js:200-212 | LoginRequired with no request when logged out; otherwise one plain load, and a new comment form in the default format |
| IssueHandlers.QuoteComment | src/routes/issue.js:218-227 | one comment load with no access level; its rejection is passed on; otherwise a new comment in the markup format whose initial text reads back as exactly the comment's text under the 'EditComment.CommentQuote' header naming '#' and the comment id |
| IssueHandlers.ReplyComment | src/routes/issue.js:214-229 | LoginRequired with no request when logged out; the issue load comes first and, if rejected, alone with its failure passed on; then the comment load, whose rejection is passed on; with both answered, a reply in the markup format quoting the comment's text whatever its own format |
| IssueHandlers.EditComment | src/routes/issue.js:231-242 | one comment load for the admin or author; the edit form starts from the comment's text and its own format |
| IssueHandlers.DeleteComment | src/routes/issue.js:244-253 | one comment load for the admin or author; the small delete view is shown exactly when it succeeds |
| IssueHandlers.AddFile | src/routes/issue.js:255-266 | LoginRequired with no request when logged out; otherwise one plain load, and the upload form naming the issue |
| IssueHandlers.EditFile | src/routes/issue.js:268-279 | one attachment load for the admin or owner; the edit form starts from its name and description |
| IssueHandlers.DeleteFile | src/routes/issue.js:281-291 | one attachment load for the admin or owner; the delete view names the attachment |
| IssueStore.MutationsFor | src/routes/issue.js:27-30 | a clear is committed exactly when the slot holds another issue; then the last commit sets the requested id; every id set is the requested one, set after a clear |
| IssueStore.TwoStepApply | src/routes/issue.js:28-29 | a clear followed by setting the id leaves an unloaded slot holding that id |
| IssueStore.AfterLoadHoldsRequested | src/routes/issue.js:26-33 | afterwards the slot holds the requested issue; its loaded data survives exactly when it already held that issue |
| IssueStore.ReloadCommitsNothing | src/routes/issue.js:27 | opening the same issue again commits no mutation |
| IssueStore.IssueSlot.Commit | src/routes/issue.js:28-29 | the slot's new state is the mutation applied to the old one, and the mutation is appended to its history |
| IssueStore.IssueSlot.LoadIssueDetails | src/routes/issue.js:26-34 | the committed mutations are exactly those for the old and requested ids; the new state is the specified after-load state; the resolution is the issue details resolution |
| IssueRoutes.PatternsCaptureHandlerParams | src/routes/issue.js:36-291 | each registered pattern captures exactly the parameters its handler reads, in path order |
| IssueRoutes.RegisteredNamesDistinct | src/routes/issue.js:36-309 | no route name is registered twice; every route but 'ClientDownload' is registered in every build, and 'ClientDownload' only in the desktop build |
| IssueRoutes.Resolve | src/routes/issue.js:26-42 | the resolution is the handler's; the two detail routes bring the issue slot to the requested issue as specified, and no other route touches it |
| RouteRules.IssueDetailsFollowsTables | src/routes/issue.js:36-38 | 'IssueDetails' follows the route tables |
| RouteRules.IssueItemFollowsTables | src/routes/issue.js:40-42 | 'IssueItem' follows the route tables |
| RouteRules.GoToItemFollowsTables | src/routes/issue.js:44-46 | 'GoToItem' follows the route tables |
| RouteRules.ItemFollowsTables | src/routes/issue.js:48-55 | 'Item' follows the route tables |
| RouteRules.EditIssueFollowsTables | src/routes/issue.js:57-71 | 'EditIssue' follows the route tables |
| RouteRules.AddIssueFollowsTables | src/routes/issue.js:73-97 | 'AddIssue' follows the route tables |
| RouteRules.CloneIssueFollowsTables | src/routes/issue.js:99-116 | 'CloneIssue' follows the route tables |
| RouteRules.MoveIssueFollowsTables | src/routes/issue.js:118-129 | 'MoveIssue' follows the route tables |
| RouteRules.DeleteIssueFollowsTables | src/routes/issue.js:131-139 | 'DeleteIssue' follows the route tables |
| RouteRules.AddDescriptionFollowsTables | src/routes/issue.js:141-153 | 'AddDescription' follows the route tables |
| RouteRules.ReplyDescriptionFollowsTables | src/routes/issue.js:155-170 | 'ReplyDescription' follows the route tables |
| RouteRules.EditDescriptionFollowsTables | src/routes/issue.js:172-185 | 'EditDescription' follows the route tables |
| RouteRules.DeleteDescriptionFollowsTables | src/routes/issue.js:187-198 | 'DeleteDescription' follows the route tables |
| RouteRules.AddCommentFollowsTables | src/routes/issue.js:200-212 | 'AddComment' follows the route tables |
| RouteRules.ReplyCommentFollowsTables | src/routes/issue.js:214-229 | 'ReplyComment' follows the route tables |
| RouteRules.EditCommentFollowsTables | src/routes/issue.js:231-242 | 'EditComment' follows the route tables |
| RouteRules.DeleteCommentFollowsTables | src/routes/issue.js:244-253 | 'DeleteComment' follows the route tables |
| RouteRules.AddFileFollowsTables | src/routes/issue.js:255-266 | 'AddFile' follows the route tables |
| RouteRules.EditFileFollowsTables | src/routes/issue.js:268-279 | 'EditFile' follows the route tables |
| RouteRules.DeleteFileFollowsTables | src/routes/issue.js:281-291 | 'DeleteFile' follows the route tables |
| RouteRules.RouteFollowsTables | src/routes/issue.js:36-291 | every registered route but 'ClientDownload' follows the route tables |
| RouteRules.LoginRequiredExactlyWhenGated | src/routes/issue.js:57-257 | a route fails with LoginRequired exactly when it is one of the seven gated routes and nobody is logged in, and then it has issued no request |
| RouteRules.ErrorsComeFromTheTable | src/routes/issue.js:57-198 | every route error is an 'APIError' whose code is one the route's table lists (LoginRequired, UnknownType, DescriptionAlreadyExists or UnknownDescription, per route) |
| RouteRules.RejectionEndsResolution | src/routes/issue.js:49-282 | every request before the last one succeeded; the outcome is the server's rejection exactly when the last request was rejected, and it is that very failure |
| RouteRules.RequestsFollowTheRoute | src/routes/issue.js:49-282 | a route issues at most the requests it needs (two for 'ReplyComment', none for 'AddIssue' and 'GoToItem', one otherwise); each is about the route's own issue, or the item for 'Item', and asks for the route's access level |
| RouteRules.ViewsFollowTheRoute | src/routes/issue.js:32-289 | a shown view is the route's own component, with the route's size (large details, small deletions of a description, comment or file) and mode (add, edit or clone) |
| RouteRules.OnlyItemRedirects | src/routes/issue.js:48-55 | a route redirects exactly when it is 'Item' and the find succeeds; 'Item' never shows a view |

## Left out

- The `ajax` transport, the server endpoints and the access checks they make. Each endpoint is a total function from its query to a reply or a rejection. Access levels are recorded in the requests but not enforced.
- Promises and asynchrony. A handler is a sequential computation that stops at the first rejection. No two resolutions overlap.
- The Vuex store beyond the `issue` slot. The session getters are a read-only snapshot.
- The 'issue/clear' mutation and the 'issue/load' action are outside `src/routes/issue.js` and are not part of this model. Clearing is modelled as forgetting the issue id and its loaded data. The action is a request to the server that marks the slot loaded when it succeeds.
- The `route` registration callback and URL matching. Only the name and pattern table is modelled. The parameters a match captured are given as a map.
- The body of `i18n.t` and of `parser.convertInitialValue`. They are function-valued inputs.
- The `ClientDownload` handler (src/routes/issue.js:294-308). It calls `Vue.prototype.$client.findAttachment`, a file-system bridge of the desktop client. Only its registration in the desktop build is modelled. `IssueRoutes.Handle` and `IssueRoutes.Resolve` require a name other than 'ClientDownload'.
- The message text of the `Error` built by `makeError`, and the numeric values of `ErrorCode` and `TextFormat`. The constants file is not part of this model.
- The extra fields a JavaScript object may carry: a view is one of the listed records.
