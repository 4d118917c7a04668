# Issue list row presenter

A Dafny model of the decision logic inside `IssueListItem`, the component that
renders one GitHub issue as a row of the Gitpod launcher extension's issue
lists. Given an issue, the row's props (`bodyVisible`, `fromCache`, and which
of the `visitIssue`, `removeIssue` and `changeBodyVisibility` callbacks the
host supplied), and the workspace preferences for the issue's context (or
`undefined` while they load), the row decides:

- its accessory strip: an optional comment count, then the update time, then
  the editor-class badge ("L" or "S"), then the author;
- its title, which is blank while the preview shows the body, and its `#N` subtitle;
- its search keywords: the issue number, plus the author's login if it is non-empty;
- its action panel: open in Gitpod, view in GitHub, show/hide preview, add to
  recents, remove from recents, configure workspace. Which ones appear depends on
  `fromCache`;
- what each action does, as a trace of abstract effects. The possible effects are
  reporting a visit, removing from recents, switching the preview, launching a
  workspace, opening a URL, showing a toast and opening the preference editor.

Modules:

- `Wrappers` defines `Option`, which stands for JavaScript's `undefined`.
- `Decimal` models how a template literal `${n}` renders an integer. It also
  defines a parser, and proves that rendering and parsing form a bijection.
- `Templates` covers the other JavaScript semantics the row relies on: how
  `undefined` is interpolated, string truthiness, optional boolean props, and
  stripping a fixed prefix and suffix.
- `Issues` holds the issue record, the preference record and the context key.
- `Accessories` builds the accessory strip.
- `Actions` holds the action matrix, the per-action effect traces and the
  preview state machine.
- `RowPresenter` assembles the whole row.

Callbacks are treated as present or absent, and `f?.(x)` becomes an effect
only when `f` is present. The helpers `getIssueAuthor` and `getIssueStatus`
(in `src/helpers/issue`) are not part of this model. Their results enter the
model as opaque icon-and-label `Badge` inputs.

Three details of the code are worth calling out:

- "Remove from Recents" calls `removeIssue?.(issue)`. The removal happens only
  when the host supplied `removeIssue`; the confirmation toast is shown either way.
- While the preferences are still loading, the editor-class tooltip reads
  "Editor: undefined, Class: undefined ". The tooltip always ends with a space.
- The recents list, with its de-duplication and ordering, lives in the host.
  This component only forwards visits and removals to the host's callbacks.

## Model

| member | source | states |
|---|---|---|
| Decimal.NatToString | src/components/IssueListItem.tsx:72 | the comment count renders as a well-formed decimal numeral, which starts with '0' only for zero |
| Decimal.ParseNatToString | src/components/IssueListItem.tsx:72 | a rendered count reads back as the same count |
| Decimal.NatToStringParse | src/components/IssueListItem.tsx:72 | every well-formed numeral is the rendering of the value it denotes, so rendering is onto the numerals |
| Decimal.ParseIntToString | src/components/IssueListItem.tsx:77 | the issue number, rendered as `${issue.number}` (sign included), reads back as the same number |
| Decimal.IntToStringParse | src/components/IssueListItem.tsx:77 | every numeral the parser accepts is exactly the rendering of its value |
| Decimal.IntToStringInjective | src/components/IssueListItem.tsx:87 | distinct issue numbers render to distinct text |
| Issues.KeySharedByTopic | src/components/IssueListItem.tsx:45 | two issues share a context key exactly when they have the same repository and title, whatever their ids and numbers |
| Accessories.EditorClassText | src/components/IssueListItem.tsx:56 | the badge is "L" exactly when preferences are loaded and the class is "g1-large"; otherwise it is "S", including while loading |
| Accessories.EditorClassReadsOnlyClass | src/components/IssueListItem.tsx:56 | the badge depends on the class alone; loading preferences give the same badge as any non-large class |
| Accessories.EditorTooltip | src/components/IssueListItem.tsx:62 | the tooltip names editor and class; while preferences load both read "undefined"; it ends with a space |
| Accessories.BaseAccessories | src/components/IssueListItem.tsx:49-68 | every row ends with these three accessories, in this order: update time, then editor-class badge, then the author icon with "Author: " tooltip |
| Accessories.RowAccessories | src/components/IssueListItem.tsx:49-75 | a comment badge exists iff the count is positive and the body is hidden, and it is then first; the length is 4 with it and 3 without; the last three are always the base accessories in order |
| Accessories.CommentBadgeCount | src/components/IssueListItem.tsx:70-75 | the comment badge's text reads back as the issue's comment count |
| Accessories.ShowingBodyDropsBadge | src/components/IssueListItem.tsx:70-75 | showing the body changes the strip only by dropping the leading comment badge, and only for issues with comments |
| Accessories.ThreeCommentsExample | src/components/IssueListItem.tsx:70-75 | three comments with the body hidden lead with badge "3"; with the body shown there is no comment badge |
| Actions.RowActions | src/components/IssueListItem.tsx:94-170 | the panel always starts with open-in-Gitpod, then view-in-GitHub, and ends with configure-workspace; it has 4 distinct actions from the recents list and 6 otherwise |
| Actions.RowActionsExactly | src/components/IssueListItem.tsx:94-170 | from the recents list the panel is [open, view, remove, configure]; otherwise it is [open, view, show preview, hide preview, add to recents, configure] |
| Actions.RowActionsMatchTable | src/components/IssueListItem.tsx:109-156 | an action is offered iff the availability table allows it for the row's `fromCache` |
| Actions.RemoveExcludesLiveActions | src/components/IssueListItem.tsx:109-156 | remove is never offered together with show, hide or add, and one of remove or add is always offered |
| Actions.ActionTitlesDistinct | src/components/IssueListItem.tsx:95-158 | the seven panel titles given by `ActionTitle` are pairwise distinct, so no two actions share an entry |
| Actions.AddedToastTitle | src/components/IssueListItem.tsx:137 | the add confirmation `Added Issue "#N" to Recents` names the issue, and its number reads back from the text |
| Actions.RemovedToastTitle | src/components/IssueListItem.tsx:150 | the remove confirmation `Removed Issue #N from Recents` names the issue, and its number reads back from the text |
| Actions.ToastTitlesDiffer | src/components/IssueListItem.tsx:137-150 | an add confirmation never reads as a remove confirmation |
| Actions.VisitComesFirst | src/components/IssueListItem.tsx:94-142 | a visit is reported iff the action is open, view or add and `visitIssue` is supplied; it then comes first, before the action's one other effect; that effect is the workspace launch for open and the browser open for view |
| Actions.TraceExactly | src/components/IssueListItem.tsx:94-170 | each action's trace in closed form, for every combination of callbacks: open = [visit?] + launch(url, key); view = [visit?] + open(url); show/hide = [SetBodyVisible(true/false)] or nothing without the callback; add = [visit?] + add toast; remove = [remove?] + remove toast; configure = [open preference editor(key)] |
| Actions.OneKeyPerRow | src/components/IssueListItem.tsx:94-170 | the workspace is launched and the preference editor is opened under one key: ("Issue", repository, title) |
| Actions.TraceIsAboutTheIssue | src/components/IssueListItem.tsx:94-170 | every effect concerns this row's issue: the visit and removal carry its record, navigation uses its URL, and the workspace and preference editor use its context key |
| Actions.ToastsNameTheIssue | src/components/IssueListItem.tsx:131-156 | add and remove each end with a success toast whose text names this issue's number; no other action shows a toast |
| Actions.OnlyRemoveRemoves | src/components/IssueListItem.tsx:144-156 | a removal happens iff the action is "Remove from Recents" and `removeIssue` is supplied; that action never reports a visit |
| Actions.NoToggleKeepsVisibility | src/components/IssueListItem.tsx:113-128 | a trace without a visibility change leaves the preview state unchanged |
| Actions.PreviewStateMachine | src/components/IssueListItem.tsx:109-130 | with `changeBodyVisibility` supplied, Show leads to visible and Hide to hidden; every other action, and every action without the callback, keeps the state; Show and Hide emit exactly one `SetBodyVisible`, or nothing without the callback |
| Actions.CachedRowsCannotTogglePreview | src/components/IssueListItem.tsx:109-130 | no action offered on a row from the recents list changes the preview state |
| RowPresenter.RowTitle | src/components/IssueListItem.tsx:86 | the title is empty while the body is visible and the issue's title otherwise, so it is empty exactly when the body is visible or the issue has no title |
| RowPresenter.Subtitle | src/components/IssueListItem.tsx:87 | the subtitle is '#' followed by a numeral that reads back as the issue number |
| RowPresenter.Present | src/components/IssueListItem.tsx:83-92 | the title is "" when `bodyVisible` is `true` and the issue's title otherwise (undefined included); the subtitle tooltip is "Repository: " + nameWithOwner and the status tooltip "Status: " + the status label; removal from recents is offered exactly when `fromCache` is `true` |
| RowPresenter.PresentCommentBadge | src/components/IssueListItem.tsx:70-75 | the row carries a comment badge exactly when the issue has comments and `bodyVisible` is not `true` |
| RowPresenter.Keywords | src/components/IssueListItem.tsx:77-81 | the first keyword is the issue number; the login is the second and last keyword iff the author is present with a non-empty login; otherwise there is one keyword |
| RowPresenter.FirstKeywordIsNumber | src/components/IssueListItem.tsx:77 | the first keyword reads back as the issue number |
| RowPresenter.UndefinedFlagsAreFalse | src/components/IssueListItem.tsx:70-144 | leaving `bodyVisible` and `fromCache` undefined gives the same row as setting both to false |
| RowPresenter.PreviewHidesTitleAndBadge | src/components/IssueListItem.tsx:70-86 | with the preview open the title is empty and there is no comment badge; with it closed the title is the issue's and the badge leads iff there are comments |
| RowPresenter.CachedRowActions | src/components/IssueListItem.tsx:144-156 | a row from the recents list offers remove and offers none of show preview, hide preview or add to recents |

## Left out

- Rendering by the launcher host is not modelled: `List.Item`, `ActionPanel`, icons, tint colours, keyboard shortcuts and the detail markdown.
- Loading preferences through `usePromise` and `getPreferencesForContext`, and `revalidate`, are not modelled. They are asynchronous calls into code outside this model, so the loaded preferences are an `Option` input.
- `getIssueAuthor` and `getIssueStatus` are not modelled. Their icon-and-label results are opaque inputs, and no fallback tables are invented for them.
- `OpenInGitpod`, `open`, `showToast` and the navigation `push` of the preference editor are foreign calls. They appear only as abstract effects in a trace. Awaiting the toast is not modelled.
- Date parsing (`new Date`) and the long-form `format` of the update time are locale-dependent formatting. The timestamp accessory keeps the raw `updatedAt` text, and its tooltip is not modelled.
- The recents cache (de-duplication, promotion to the front, eviction) is not implemented by this component, so it is not modelled.
- Actions.OneKeyPerRow: the preference lookup at line 45 of the component is not modelled; the loaded preferences are an input, so nothing ties them to the row's key.
- Actions.TraceExactly: the traces are those of handlers whose callbacks and foreign calls return normally. A throwing `visitIssue`, `removeIssue` or `changeBodyVisibility` would end the handler before its later effects; exceptions are not modelled.
- RowPresenter.Present: always produces a row. In the component, `format` throws when `updatedAt` cannot be parsed as a date, and then no row is rendered; date parsing is not modelled.
- Decimal.IntToString: renders integers in plain digits only. `number` and `totalCount` are GraphQL `Int` values (32-bit), far below 1e21, where JavaScript switches to exponent form; that form is not modelled.
- The `viewer` and `mutateList` props are not modelled because the component never reads them.
