/**
 * What a route reads besides its parameters and the server: a read-only
 * snapshot of the client store, and the two collaborators handed to the
 * route factory (message lookup and the attribute value parser), whose
 * behaviour is left uninterpreted.
 */
module Context {
  import opened Wrappers
  import opened Backend

  /** An attribute of an issue type; `definition` stands for the type information the parser reads. */
  datatype AttributeDef = AttributeDef(id: int, name: string, default: string, definition: string)

  datatype IssueType = IssueType(id: int, attributes: seq<AttributeDef>)

  datatype Project = Project(id: int)

  datatype Folder = Folder(id: int)

  /**
   * The store as the routes read it: `global/isAuthenticated`, `global.types`,
   * `list/project`, `list/folder` and `global.settings.defaultFormat`.
   */
  datatype Session = Session(
    authenticated: bool,
    types: seq<IssueType>,
    project: Option<Project>,
    folder: Option<Folder>,
    defaultFormat: TextFormat)

  /** `i18n.t(key, args)` and `parser.convertInitialValue(value, attribute)`. */
  datatype Env = Env(
    translate: (string, seq<string>) -> string,
    convertInitialValue: (string, AttributeDef) -> string)
}
