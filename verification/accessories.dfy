/**
 * The accessory strip on the right of an issue row: an optional comment
 * count, the update time, the workspace class chosen for the issue's
 * context, and the author.
 */
module Accessories {
  import opened Wrappers
  import opened Decimal
  import opened Templates
  import opened Issues

  datatype Accessory =
    | CommentCount(text: string)
      /** The update time; its long-form tooltip is date formatting outside this model. */
    | Updated(date: string)
    | EditorClass(text: string, tooltip: string)
    | AuthorIcon(icon: string, tooltip: string)

  /** The one editor class that is shown as large. */
  const LargeClass: string := "g1-large"

  /**
   * "L" for a context whose preferences are loaded and name the large class,
   * "S" otherwise, including while the preferences are still loading.
   */
  function EditorClassText(prefs: Option<Prefs>): (t: string)
    ensures t == "L" || t == "S"
    ensures t == "L" <==> prefs.Some? && prefs.value.preferredEditorClass == LargeClass
  {
    if prefs.Some? && prefs.value.preferredEditorClass == LargeClass then "L" else "S"
  }

  /** `preferences?.preferredEditor` */
  function EditorOf(prefs: Option<Prefs>): Option<string> {
    match prefs
    case None => None
    case Some(p) => Some(p.preferredEditor)
  }

  /** `preferences?.preferredEditorClass` */
  function ClassOf(prefs: Option<Prefs>): Option<string> {
    match prefs
    case None => None
    case Some(p) => Some(p.preferredEditorClass)
  }

  /**
   * The editor-class tooltip names the editor and the class; while the
   * preferences are loading both read "undefined". It ends with a space.
   */
  function EditorTooltip(prefs: Option<Prefs>): (s: string)
    ensures prefs.None? ==> s == "Editor: undefined, Class: undefined "
    ensures prefs.Some? ==>
      s == "Editor: " + prefs.value.preferredEditor + ", Class: " + prefs.value.preferredEditorClass + " "
  {
    "Editor: " + OptionalText(EditorOf(prefs)) + ", Class: " + OptionalText(ClassOf(prefs)) + " "
  }

  /** The accessories every row has, in order: update time, editor class, author. */
  function BaseAccessories(issue: Issue, prefs: Option<Prefs>, author: Badge): (r: seq<Accessory>)
    ensures |r| == 3
    ensures r[0] == Updated(issue.updatedAt)
    ensures r[1] == EditorClass(EditorClassText(prefs), EditorTooltip(prefs))
    ensures r[2].AuthorIcon? && r[2].icon == author.icon
    ensures r[2].tooltip == "Author: " + author.text
  {
    [ Updated(issue.updatedAt),
      EditorClass(EditorClassText(prefs), EditorTooltip(prefs)),
      AuthorIcon(author.icon, "Author: " + author.text) ]
  }

  /** The comment count is shown only for commented issues whose body is not on screen. */
  predicate ShowsCommentCount(issue: Issue, bodyVisible: bool) {
    issue.commentCount > 0 && !bodyVisible
  }

  /**
   * The row's accessories: the base three, with the comment count in front
   * of them exactly when `ShowsCommentCount` holds.
   */
  function RowAccessories(issue: Issue, bodyVisible: bool, prefs: Option<Prefs>, author: Badge): (r: seq<Accessory>)
    ensures |r| == (if ShowsCommentCount(issue, bodyVisible) then 4 else 3)
    ensures r[|r| - 3..] == BaseAccessories(issue, prefs, author)
    ensures ShowsCommentCount(issue, bodyVisible) ==> r[0] == CommentCount(NatToString(issue.commentCount))
    ensures (exists i :: 0 <= i < |r| && r[i].CommentCount?) <==> ShowsCommentCount(issue, bodyVisible)
  {
    var base := BaseAccessories(issue, prefs, author);
    if ShowsCommentCount(issue, bodyVisible) then [CommentCount(NatToString(issue.commentCount))] + base
    else base
  }

  /** The comment badge's text reads back as the issue's comment count. */
  lemma CommentBadgeCount(issue: Issue, bodyVisible: bool, prefs: Option<Prefs>, author: Badge)
    requires ShowsCommentCount(issue, bodyVisible)
    ensures ParseInt(RowAccessories(issue, bodyVisible, prefs, author)[0].text) == Some(issue.commentCount)
  {
    ParseIntToString(issue.commentCount);
  }

  /**
   * Showing the body only drops the comment badge: the accessories with the
   * body visible are those with it hidden, minus the first one if the issue
   * has comments.
   */
  lemma ShowingBodyDropsBadge(issue: Issue, prefs: Option<Prefs>, author: Badge)
    ensures var hidden := RowAccessories(issue, false, prefs, author);
            RowAccessories(issue, true, prefs, author)
              == (if issue.commentCount > 0 then hidden[1..] else hidden)
  {
  }

  /**
   * The editor-class badge reads only the class: the editor's name never
   * changes it, and loading preferences behave like any class other than
   * the large one.
   */
  lemma EditorClassReadsOnlyClass(p: Prefs, q: Prefs)
    ensures p.preferredEditorClass == q.preferredEditorClass ==>
      EditorClassText(Some(p)) == EditorClassText(Some(q))
    ensures p.preferredEditorClass != LargeClass ==> EditorClassText(Some(p)) == EditorClassText(None)
  {
  }

  /** An issue with three comments and its body hidden leads with the badge "3". */
  lemma ThreeCommentsExample(issue: Issue, prefs: Option<Prefs>, author: Badge)
    requires issue.commentCount == 3
    ensures RowAccessories(issue, false, prefs, author)[0] == CommentCount("3")
    ensures forall a :: a in RowAccessories(issue, true, prefs, author) ==> !a.CommentCount?
  {
    assert NatToString(3) == "3";
  }
}
