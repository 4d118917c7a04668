/**
 * The issue record the list row is built from, the per-context preference
 * record, and the context key that addresses preferences and workspaces.
 */
module Issues {
  import opened Wrappers

  datatype Author = Author(login: Option<string>)

  /**
   * The fields of an issue the row reads. `updatedAt` stays the raw
   * timestamp text; `repository` is the repository's `nameWithOwner`.
   */
  datatype Issue = Issue(
    id: string,
    number: int,
    title: string,
    url: string,
    body: string,
    repository: string,
    author: Option<Author>,
    commentCount: nat,
    updatedAt: string)

  /** The stored workspace preferences for one context. */
  datatype Prefs = Prefs(preferredEditor: string, preferredEditorClass: string)

  /** An icon and a label computed for the issue by a helper outside this model. */
  datatype Badge = Badge(icon: string, text: string)

  /** The address of a preference record: entity type, repository and context. */
  datatype ContextKey = ContextKey(entityType: string, repository: string, context: string)

  /** The entity type this row passes with every context it names. */
  const IssueEntity: string := "Issue"

  /** The login of the issue's author, `undefined` when the author or login is missing. */
  function AuthorLogin(issue: Issue): Option<string> {
    match issue.author
    case None => None
    case Some(a) => a.login
  }

  /**
   * The context key of an issue: its repository and its title, so issues
   * are grouped by topic rather than by identity.
   */
  function KeyOf(issue: Issue): ContextKey {
    ContextKey(IssueEntity, issue.repository, issue.title)
  }

  /**
   * Two issues in the same repository with the same title share a context key,
   * whatever their ids and numbers; issues that differ in either do not.
   */
  lemma KeySharedByTopic(a: Issue, b: Issue)
    ensures KeyOf(a) == KeyOf(b) <==> a.repository == b.repository && a.title == b.title
  {
  }
}
