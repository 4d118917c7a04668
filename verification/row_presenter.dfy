/**
 * The issue list row as a whole: from the issue, the row's props and the
 * loaded preferences, its title, subtitle, status tooltip, search keywords,
 * accessories and actions.
 */
module RowPresenter {
  import opened Wrappers
  import opened Decimal
  import opened Templates
  import opened Issues
  import opened Accessories
  import opened Actions

  /**
   * The row's props. `bodyVisible` and `fromCache` may be left undefined,
   * which the row reads as `false`.
   */
  datatype Props = Props(bodyVisible: Option<bool>, fromCache: Option<bool>, callbacks: Callbacks)

  datatype Row = Row(
    title: string,
    subtitle: string,
    subtitleTooltip: string,
    statusTooltip: string,
    keywords: seq<string>,
    accessories: seq<Accessory>,
    actions: seq<ActionKind>)

  /** The title is hidden while the preview shows the issue's title and body. */
  function RowTitle(issue: Issue, bodyVisible: bool): (t: string)
    ensures bodyVisible ==> t == ""
    ensures !bodyVisible ==> t == issue.title
    ensures t == "" <==> bodyVisible || issue.title == ""
  {
    if !bodyVisible then issue.title else ""
  }

  /** The subtitle is '#' followed by a numeral that reads back as the issue number. */
  function Subtitle(issue: Issue): (s: string)
    ensures |s| >= 2 && s[0] == '#'
    ensures ParseInt(s[1..]) == Some(issue.number)
  {
    ParseIntToString(issue.number);
    var s := "#" + IntToString(issue.number);
    assert s[1..] == IntToString(issue.number);
    s
  }

  /**
   * The search keywords: the issue number, then the author's login when the
   * issue has an author with a non-empty login.
   */
  function Keywords(issue: Issue): (k: seq<string>)
    ensures |k| == (if TruthyString(AuthorLogin(issue)) then 2 else 1)
    ensures k[0] == IntToString(issue.number)
    ensures |k| == 2 ==> k[1] == AuthorLogin(issue).value
  {
    var login := AuthorLogin(issue);
    [IntToString(issue.number)] + (if TruthyString(login) then [login.value] else [])
  }

  /**
   * The row for `issue`, given the status and author badges the helpers
   * compute for it. Only `bodyVisible == true` hides the title, and only
   * `fromCache == true` offers removal from the recents list; an undefined
   * flag counts as false.
   */
  function Present(issue: Issue, props: Props, prefs: Option<Prefs>, status: Badge, author: Badge): (r: Row)
    ensures r.title == (if props.bodyVisible == Some(true) then "" else issue.title)
    ensures r.subtitle == Subtitle(issue)
    ensures r.subtitleTooltip == "Repository: " + issue.repository
    ensures r.statusTooltip == "Status: " + status.text
    ensures r.keywords == Keywords(issue)
    ensures r.accessories == RowAccessories(issue, Flag(props.bodyVisible), prefs, author)
    ensures r.actions == RowActions(Flag(props.fromCache))
    ensures RemoveFromRecents in r.actions <==> props.fromCache == Some(true)
  {
    var bodyVisible := Flag(props.bodyVisible);
    var fromCache := Flag(props.fromCache);
    var actions := RowActions(fromCache);
    RowActionsMatchTable(fromCache, RemoveFromRecents);
    assert RemoveFromRecents in actions <==> props.fromCache == Some(true);
    Row(
      RowTitle(issue, bodyVisible),
      Subtitle(issue),
      "Repository: " + issue.repository,
      "Status: " + status.text,
      Keywords(issue),
      RowAccessories(issue, bodyVisible, prefs, author),
      actions)
  }

  /** The first keyword finds the issue by its number. */
  lemma FirstKeywordIsNumber(issue: Issue)
    ensures ParseInt(Keywords(issue)[0]) == Some(issue.number)
  {
    ParseIntToString(issue.number);
  }

  /**
   * The comment badge is on the row exactly when the issue has comments and
   * `bodyVisible` is not `true`, so an undefined flag shows it.
   */
  lemma PresentCommentBadge(issue: Issue, props: Props, prefs: Option<Prefs>, status: Badge, author: Badge)
    ensures var r := Present(issue, props, prefs, status, author);
            (exists i :: 0 <= i < |r.accessories| && r.accessories[i].CommentCount?)
              <==> issue.commentCount > 0 && props.bodyVisible != Some(true)
  {
    assert Flag(props.bodyVisible) <==> props.bodyVisible == Some(true);
    assert Present(issue, props, prefs, status, author).accessories
        == RowAccessories(issue, Flag(props.bodyVisible), prefs, author);
  }

  /** Undefined flags behave exactly like `false`. */
  lemma UndefinedFlagsAreFalse(issue: Issue, callbacks: Callbacks, prefs: Option<Prefs>, status: Badge, author: Badge)
    ensures Present(issue, Props(None, None, callbacks), prefs, status, author)
         == Present(issue, Props(Some(false), Some(false), callbacks), prefs, status, author)
  {
  }

  /**
   * With the preview open the row has an empty title and no comment badge;
   * with it closed the title is the issue's and the badge follows the count.
   */
  lemma PreviewHidesTitleAndBadge(issue: Issue, callbacks: Callbacks, fromCache: Option<bool>,
                                  prefs: Option<Prefs>, status: Badge, author: Badge)
    ensures var r := Present(issue, Props(Some(true), fromCache, callbacks), prefs, status, author);
            r.title == "" && forall a :: a in r.accessories ==> !a.CommentCount?
    ensures var r := Present(issue, Props(Some(false), fromCache, callbacks), prefs, status, author);
            r.title == issue.title && (r.accessories[0].CommentCount? <==> issue.commentCount > 0)
  {
    assert Flag(Some(true)) && !Flag(Some(false));
    assert Present(issue, Props(Some(true), fromCache, callbacks), prefs, status, author).accessories
        == BaseAccessories(issue, prefs, author);
  }

  /** A row from the recents list can be removed from it but neither previewed nor added again. */
  lemma CachedRowActions(issue: Issue, bodyVisible: Option<bool>, callbacks: Callbacks,
                         prefs: Option<Prefs>, status: Badge, author: Badge)
    ensures var r := Present(issue, Props(bodyVisible, Some(true), callbacks), prefs, status, author);
            && RemoveFromRecents in r.actions
            && ShowPreview !in r.actions && HidePreview !in r.actions && AddToRecents !in r.actions
  {
    var r := Present(issue, Props(bodyVisible, Some(true), callbacks), prefs, status, author);
    assert Flag(Some(true));
    assert r.actions == RowActions(true);
    RemoveExcludesLiveActions(true);
  }
}
