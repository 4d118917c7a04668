/**
 * The action panel of an issue row: which actions a row offers, depending on
 * whether it is shown from the recents list, and what each action does when
 * chosen, recorded as a trace of abstract effects.
 */
module Actions {
  import opened Wrappers
  import opened Decimal
  import opened Templates
  import opened Issues

  datatype ActionKind =
    | OpenInGitpod
    | ViewInGitHub
    | ShowPreview
    | HidePreview
    | AddToRecents
    | RemoveFromRecents
    | ConfigureWorkspace

  /** The row only ever shows success toasts. */
  datatype ToastStyle = Success

  /** What an action asks its collaborators to do, in the order it asks. */
  datatype Effect =
      /** The row's `visitIssue` callback, which records a visit upstream. */
    | Visit(issue: Issue)
      /** The row's `removeIssue` callback. */
    | Remove(issue: Issue)
      /** The row's `changeBodyVisibility` callback. */
    | SetBodyVisible(visible: bool)
    | LaunchWorkspace(url: string, key: ContextKey)
    | OpenUrl(url: string)
    | ShowToast(title: string, style: ToastStyle)
      /** Opening the preference editor for a context, which revalidates the row on save. */
    | ConfigurePreferences(key: ContextKey)

  /** Which of the row's optional callbacks the host supplied. */
  datatype Callbacks = Callbacks(visitIssue: bool, removeIssue: bool, changeBodyVisibility: bool)

  function ActionTitle(a: ActionKind): string {
    match a
    case OpenInGitpod => "Open Issue in Gitpod"
    case ViewInGitHub => "View Issue in GitHub"
    case ShowPreview => "Show Issue Preview"
    case HidePreview => "Hide Issue Preview"
    case AddToRecents => "Add Issue to Recents"
    case RemoveFromRecents => "Remove from Recents"
    case ConfigureWorkspace => "Configure Workspace"
  }

  /**
   * The availability table: opening, viewing and configuring are always
   * offered; previewing and adding to recents only on live rows; removing
   * from recents only on rows shown from the recents list.
   */
  predicate Available(a: ActionKind, fromCache: bool) {
    match a
    case ShowPreview | HidePreview | AddToRecents => !fromCache
    case RemoveFromRecents => fromCache
    case _ => true
  }

  /** The row's actions, in panel order. */
  function RowActions(fromCache: bool): (r: seq<ActionKind>)
    ensures |r| >= 4
    ensures r[0] == OpenInGitpod && r[1] == ViewInGitHub && r[|r| - 1] == ConfigureWorkspace
    ensures fromCache ==> |r| == 4
    ensures !fromCache ==> |r| == 6
    ensures forall i, j :: 0 <= i < j < |r| ==> r[i] != r[j]
  {
    [OpenInGitpod, ViewInGitHub]
      + (if fromCache then [] else [ShowPreview])
      + (if fromCache then [] else [HidePreview])
      + (if fromCache then [] else [AddToRecents])
      + (if fromCache then [RemoveFromRecents] else [])
      + [ConfigureWorkspace]
  }

  /** The two panels, spelled out. */
  lemma RowActionsExactly()
    ensures RowActions(true) == [OpenInGitpod, ViewInGitHub, RemoveFromRecents, ConfigureWorkspace]
    ensures RowActions(false)
         == [OpenInGitpod, ViewInGitHub, ShowPreview, HidePreview, AddToRecents, ConfigureWorkspace]
  {
  }

  /** The panel offers exactly the actions the availability table allows. */
  lemma RowActionsMatchTable(fromCache: bool, a: ActionKind)
    ensures a in RowActions(fromCache) <==> Available(a, fromCache)
  {
  }

  /** Removing from recents and the live-row actions are never offered together. */
  lemma RemoveExcludesLiveActions(fromCache: bool)
    ensures var r := RowActions(fromCache);
            RemoveFromRecents in r ==> ShowPreview !in r && HidePreview !in r && AddToRecents !in r
    ensures var r := RowActions(fromCache);
            RemoveFromRecents in r || AddToRecents in r
  {
  }

  /** The panel's entries have distinct titles. */
  lemma ActionTitlesDistinct(a: ActionKind, b: ActionKind)
    requires a != b
    ensures ActionTitle(a) != ActionTitle(b)
  {
  }

  const AddedPrefix: string := "Added Issue \"#"
  const AddedSuffix: string := "\" to Recents"
  const RemovedPrefix: string := "Removed Issue #"
  const RemovedSuffix: string := " from Recents"

  /**
   * The confirmation shown after adding an issue to the recents list; it
   * names the issue, whose number can be read back from it.
   */
  function AddedToastTitle(number: int): (t: string)
    ensures AddedToastNumber(t) == Some(number)
  {
    BetweenInterpolation(AddedPrefix, IntToString(number), AddedSuffix);
    ParseIntToString(number);
    AddedPrefix + IntToString(number) + AddedSuffix
  }

  /**
   * The confirmation shown after removing an issue from the recents list; it
   * names the issue, whose number can be read back from it.
   */
  function RemovedToastTitle(number: int): (t: string)
    ensures RemovedToastNumber(t) == Some(number)
  {
    BetweenInterpolation(RemovedPrefix, IntToString(number), RemovedSuffix);
    ParseIntToString(number);
    RemovedPrefix + IntToString(number) + RemovedSuffix
  }

  /** The issue number an add confirmation names, if `t` is one. */
  function AddedToastNumber(t: string): Option<int> {
    match Between(t, AddedPrefix, AddedSuffix)
    case None => None
    case Some(n) => ParseInt(n)
  }

  /** The issue number a remove confirmation names, if `t` is one. */
  function RemovedToastNumber(t: string): Option<int> {
    match Between(t, RemovedPrefix, RemovedSuffix)
    case None => None
    case Some(n) => ParseInt(n)
  }

  /** An add confirmation is never mistaken for a remove confirmation. */
  lemma ToastTitlesDiffer(a: int, b: int)
    ensures AddedToastTitle(a) != RemovedToastTitle(b)
  {
    assert AddedToastTitle(a)[0] == 'A';
    assert RemovedToastTitle(b)[0] == 'R';
  }

  /** `visitIssue?.(issue)`: a visit is reported only when the callback is supplied. */
  function VisitIfSupplied(issue: Issue, callbacks: Callbacks): seq<Effect> {
    if callbacks.visitIssue then [Visit(issue)] else []
  }

  /** The effects of choosing action `a` on the row for `issue`. */
  function Trace(a: ActionKind, issue: Issue, callbacks: Callbacks): seq<Effect> {
    match a
    case OpenInGitpod =>
      VisitIfSupplied(issue, callbacks) + [LaunchWorkspace(issue.url, KeyOf(issue))]
    case ViewInGitHub =>
      VisitIfSupplied(issue, callbacks) + [OpenUrl(issue.url)]
    case ShowPreview =>
      if callbacks.changeBodyVisibility then [SetBodyVisible(true)] else []
    case HidePreview =>
      if callbacks.changeBodyVisibility then [SetBodyVisible(false)] else []
    case AddToRecents =>
      VisitIfSupplied(issue, callbacks) + [ShowToast(AddedToastTitle(issue.number), Success)]
    case RemoveFromRecents =>
      (if callbacks.removeIssue then [Remove(issue)] else [])
        + [ShowToast(RemovedToastTitle(issue.number), Success)]
    case ConfigureWorkspace =>
      [ConfigurePreferences(KeyOf(issue))]
  }

  /** The actions that report a visit before doing their own work. */
  predicate Visits(a: ActionKind) {
    a == OpenInGitpod || a == ViewInGitHub || a == AddToRecents
  }

  /**
   * A visit is reported exactly by opening, viewing and adding, when the
   * host supplied `visitIssue`, and then it comes first.
   */
  lemma VisitComesFirst(a: ActionKind, issue: Issue, callbacks: Callbacks)
    ensures var t := Trace(a, issue, callbacks);
            Visit(issue) in t <==> Visits(a) && callbacks.visitIssue
    ensures var t := Trace(a, issue, callbacks);
            Visits(a) && callbacks.visitIssue ==> |t| == 2 && t[0] == Visit(issue)
    ensures var t := Trace(a, issue, callbacks);
            Visits(a) && !callbacks.visitIssue ==> |t| == 1
    ensures var t := Trace(a, issue, callbacks);
            a == OpenInGitpod ==> |t| >= 1 && t[|t| - 1] == LaunchWorkspace(issue.url, KeyOf(issue))
    ensures var t := Trace(a, issue, callbacks);
            a == ViewInGitHub ==> |t| >= 1 && t[|t| - 1] == OpenUrl(issue.url)
  {
  }

  /**
   * Each action's trace in closed form, for every combination of supplied
   * callbacks. The context key is spelled out as entity type "Issue", the
   * repository and the title.
   */
  lemma TraceExactly(issue: Issue, callbacks: Callbacks)
    ensures var key := ContextKey("Issue", issue.repository, issue.title);
            Trace(OpenInGitpod, issue, callbacks)
              == (if callbacks.visitIssue then [Visit(issue)] else []) + [LaunchWorkspace(issue.url, key)]
    ensures Trace(ViewInGitHub, issue, callbacks)
              == (if callbacks.visitIssue then [Visit(issue)] else []) + [OpenUrl(issue.url)]
    ensures Trace(ShowPreview, issue, callbacks)
              == (if callbacks.changeBodyVisibility then [SetBodyVisible(true)] else [])
    ensures Trace(HidePreview, issue, callbacks)
              == (if callbacks.changeBodyVisibility then [SetBodyVisible(false)] else [])
    ensures Trace(AddToRecents, issue, callbacks)
              == (if callbacks.visitIssue then [Visit(issue)] else [])
                 + [ShowToast(AddedPrefix + IntToString(issue.number) + AddedSuffix, Success)]
    ensures Trace(RemoveFromRecents, issue, callbacks)
              == (if callbacks.removeIssue then [Remove(issue)] else [])
                 + [ShowToast(RemovedPrefix + IntToString(issue.number) + RemovedSuffix, Success)]
    ensures var key := ContextKey("Issue", issue.repository, issue.title);
            Trace(ConfigureWorkspace, issue, callbacks) == [ConfigurePreferences(key)]
  {
  }

  /**
   * One row addresses one context: it launches a workspace and opens the
   * preference editor under the same key, ("Issue", repository, title).
   */
  lemma OneKeyPerRow(issue: Issue, callbacks: Callbacks)
    ensures var launch := Trace(OpenInGitpod, issue, callbacks);
            |launch| >= 1 && launch[|launch| - 1].LaunchWorkspace?
            && launch[|launch| - 1].key == KeyOf(issue)
    ensures Trace(ConfigureWorkspace, issue, callbacks)[0].key == KeyOf(issue)
    ensures KeyOf(issue) == ContextKey("Issue", issue.repository, issue.title)
  {
  }

  /**
   * Every effect is about this row's issue: the visit and the removal carry
   * it, the workspace and browser open its URL, and the workspace and the
   * preference editor use its context key.
   */
  lemma TraceIsAboutTheIssue(a: ActionKind, issue: Issue, callbacks: Callbacks, e: Effect)
    requires e in Trace(a, issue, callbacks)
    ensures e.Visit? || e.Remove? ==> e.issue == issue
    ensures e.LaunchWorkspace? || e.OpenUrl? ==> e.url == issue.url
    ensures e.LaunchWorkspace? || e.ConfigurePreferences? ==> e.key == KeyOf(issue)
  {
  }

  /**
   * Adding and removing each end in one success toast, which names this
   * issue's number in the matching confirmation; no other action toasts.
   */
  lemma ToastsNameTheIssue(a: ActionKind, issue: Issue, callbacks: Callbacks)
    ensures var t := Trace(a, issue, callbacks);
            a == AddToRecents ==> t[|t| - 1] == ShowToast(AddedToastTitle(issue.number), Success)
                                  && AddedToastNumber(t[|t| - 1].title) == Some(issue.number)
    ensures var t := Trace(a, issue, callbacks);
            a == RemoveFromRecents ==> t[|t| - 1] == ShowToast(RemovedToastTitle(issue.number), Success)
                                       && RemovedToastNumber(t[|t| - 1].title) == Some(issue.number)
    ensures a != AddToRecents && a != RemoveFromRecents ==>
      forall e :: e in Trace(a, issue, callbacks) ==> !e.ShowToast?
  {
  }

  /** Only "Remove from Recents" removes, and it never also reports a visit. */
  lemma OnlyRemoveRemoves(a: ActionKind, issue: Issue, callbacks: Callbacks)
    ensures var t := Trace(a, issue, callbacks);
            Remove(issue) in t <==> a == RemoveFromRecents && callbacks.removeIssue
    ensures a == RemoveFromRecents ==> Visit(issue) !in Trace(a, issue, callbacks)
  {
  }

  /**
   * The preview state a row ends in after a trace runs: the last
   * `SetBodyVisible` wins, and other effects leave it alone.
   */
  function ApplyVisibility(visible: bool, t: seq<Effect>): bool
    decreases |t|
  {
    if t == [] then visible
    else
      var v := if t[0].SetBodyVisible? then t[0].visible else visible;
      ApplyVisibility(v, t[1..])
  }

  /** A trace with no `SetBodyVisible` leaves the preview state as it was. */
  lemma {:induction false} NoToggleKeepsVisibility(visible: bool, t: seq<Effect>)
    requires forall i :: 0 <= i < |t| ==> !t[i].SetBodyVisible?
    ensures ApplyVisibility(visible, t) == visible
    decreases |t|
  {
    if t != [] {
      NoToggleKeepsVisibility(visible, t[1..]);
    }
  }

  /**
   * The preview state machine: "Show" moves to visible and "Hide" to hidden
   * when the host supplied `changeBodyVisibility`; every other action, and
   * every action without that callback, keeps the state.
   */
  lemma PreviewStateMachine(visible: bool, a: ActionKind, issue: Issue, callbacks: Callbacks)
    ensures var after := ApplyVisibility(visible, Trace(a, issue, callbacks));
            after == (if !callbacks.changeBodyVisibility then visible
                      else if a == ShowPreview then true
                      else if a == HidePreview then false
                      else visible)
    ensures a == ShowPreview || a == HidePreview ==>
      Trace(a, issue, callbacks)
        == (if callbacks.changeBodyVisibility then [SetBodyVisible(a == ShowPreview)] else [])
  {
    var t := Trace(a, issue, callbacks);
    if !(a == ShowPreview || a == HidePreview) {
      NoToggleKeepsVisibility(visible, t);
    }
  }

  /** A row shown from the recents list offers no action that changes the preview. */
  lemma CachedRowsCannotTogglePreview(visible: bool, issue: Issue, callbacks: Callbacks)
    ensures forall a :: a in RowActions(true) ==>
      ApplyVisibility(visible, Trace(a, issue, callbacks)) == visible
  {
    forall a | a in RowActions(true)
      ensures ApplyVisibility(visible, Trace(a, issue, callbacks)) == visible
    {
      PreviewStateMachine(visible, a, issue, callbacks);
    }
  }
}
