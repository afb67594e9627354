# Scroll synchronisation for grouped markdown panes — a Dafny model

This project models the core of the markdown-sync-scroll plugin: the two routines it
installs on markdown views. `getScrollOffsetForSync` keeps, per view, an anchor scroll
offset and the sync group it was captured under. `syncState` propagates the source
view's scroll to the other leaves of its group. With `sameType` set, a peer of another
view type is left alone and does not affect the result. Every other peer is selected. A
selected peer that is busy is skipped and makes the pass report failure. A selected
markdown peer moves by the same amount the source moved away from the source's own
anchor, counted from the peer's own anchor. Any other selected peer is asked to reopen
the source's file with the source's view state.

Files:

- `wrappers.dfy`: module `Wrappers`, the `Option` type standing for `T | null | undefined`.
- `baseline.dfy`: module `Baseline`, the value snapshot `PaneState` of a pane and the
  anchor rule `Anchor`, with lemmas about a pane's answers over a run of scrolls and queries.
- `sync.dfy`: module `SyncScroll`, the per-peer rule `Visit` and its lemmas, and the class
  `Pane` (a leaf with its view). Its methods `GetScrollOffsetForSync` and `SyncState`
  update panes in place and are proved against `Anchor` and `Visit`. `SyncPeer` is the
  loop body of `syncState`, taken out as its own method.
- `scenarios.dfy`: module `Scenarios`, small groups of fresh panes run through `SyncState`.

Host interfaces become plain state. `currentMode.getScroll`/`applyScroll` read and write
the field `scroll`. The two symbol-keyed hidden fields become `cachedOffset` and
`cachedGroup`. `getViewType()` is the field `kind`, and `instanceof MarkdownView` is
`isMarkdown`. `leaf.working` is `working`. `getSyncViewState()` and `this.file` are the
fields `viewState` and `file`. `workspace.getGroupLeaves(group)` is the input sequence
`members`. Each `openFile` call is recorded as a `Reload` entry appended to the peer's
`reloads` log.

Details of main.ts that the model keeps:

- The busy check (main.ts:52) comes before the markdown/reload split (main.ts:57). So a
  busy peer that would otherwise be reloaded is skipped too, and it makes the pass fail.
- `if (!group)` (main.ts:43) treats the empty string like `null`. `Grouped` requires a
  non-empty group name.
- If the source has not moved since its anchor, a markdown peer is set to its own anchor
  (main.ts:58-59). This is not necessarily the scroll it had before; the peer keeps its
  scroll only when it, too, has not moved since its anchor.

## Model

| member | source | states |
|---|---|---|
| `Baseline.Anchor` | main.ts:27-39 | A valid anchor cached under the requested group is returned and nothing changes. Otherwise the live scroll is returned. Either way, afterwards the pane holds the result as its anchor for that group, and only the two cache fields may differ. |
| `Baseline.AnchorStable` | main.ts:28-38 | Two consecutive queries under the same group return the same value, even if the live scroll moved in between. The second query changes nothing. |
| `Baseline.AnchorRecapturedOnGroupChange` | main.ts:29-36 | A query under a group other than the cached one returns the current live scroll and re-tags the cache with the new group. |
| `Baseline.CachedAnchorAnswersAll` | main.ts:28-38 | Once anchor v is cached for group g, every later query under g answers v, whatever scrolls happen in between. |
| `Baseline.AnchorFixedWhileGroupUnchanged` | main.ts:27-39 | Over any run of host scrolls and queries that all use one group, every query answers the same anchor as the first query. |
| `SyncScroll.ContextOf` | main.ts:42-46 | The source's anchor used by a pass is its cached offset when one is cached for the group. Otherwise it is the live scroll read just before, so the delta is zero. |
| `SyncScroll.Visit` | main.ts:50-62 | The model leaves a peer's group, busy flag, type, file and view state as they were, including a reloaded peer's (the reload is only recorded). A peer that is unselected or busy is left exactly as it was. A peer gains at most one reload request, always the source's file and view state, and a markdown peer gains none. |
| `SyncScroll.SameTypeNeverReloads` | main.ts:50-61 | When every view is a markdown view exactly when its type is "markdown", a same-type pass from a markdown view never issues a reload. |
| `SyncScroll.RelativeDelta` | main.ts:45-59 | Relative-delta law. A reached markdown peer is scrolled to `live - srcAnchor + destAnchor`. Afterwards it stands as far from its own anchor as the source stands from the source's anchor. |
| `SyncScroll.ReloadRequested` | main.ts:56-62 | A reached peer that is not a markdown view gets exactly one reload request, carrying the source's file and view state. Its scroll and anchor are unchanged. |
| `SyncScroll.SameTypeLeavesOthersAlone` | main.ts:50-51 | With `sameType` set, a peer of another view type is untouched and does not affect the result. |
| `SyncScroll.FreshSourceAnchor` | main.ts:45-59 | If the pass itself captures the source's anchor, the delta is zero. Each reached markdown peer then lands exactly on its own anchor. |
| `SyncScroll.SyncPeer` | main.ts:50-63 | Handling one peer leaves it in the state `Visit` gives. The peer is reported blocked exactly when it is selected and busy. |
| `SyncScroll.Pane.GetScrollOffsetForSync` | main.ts:27-39 | Returns and stores exactly what `Anchor` gives. On a cache hit it returns the cached offset and changes nothing. On a miss it returns the live scroll. Afterwards the cache holds the result under the requested group. |
| `SyncScroll.Pane.SyncState` | main.ts:40-66 | A leaf with a null or empty group returns false and no pane changes. Otherwise the source only has its anchor captured. Every other member ends in the state `Visit` gives it under the source's context. The result is true iff no selected member was busy. |
| `Scenarios.TwoMarkdownPanes` | main.ts:40-66 | Anchors 100 and 40, source scrolled to 130: the peer moves to 70, the source stays at 130, and the pass succeeds. |
| `Scenarios.BusyPeerSkipped` | main.ts:47-55 | A busy peer keeps its scroll and gets no anchor, and the pass fails. A later markdown peer is still moved. |
| `Scenarios.MixedTypesReloaded` | main.ts:50-62 | Without `sameType`, one pass both reloads a pdf peer with the source's file and view state and scrolls a markdown peer. With a freshly captured source anchor, the markdown peer lands on its own anchor. |
| `Scenarios.SameTypeOnly` | main.ts:50-51 | With `sameType`, a busy peer of another type is neither reloaded nor anchored, and the pass still succeeds. |
| `Scenarios.EmptyGroupFails` | main.ts:42-43 | A leaf whose group is the empty string returns false. No anchor is captured and no peer moves. |
| `Scenarios.AloneInGroup` | main.ts:40-66 | A group containing only the source succeeds. The source keeps its scroll and has its anchor captured. |

## Left out

- Plugin lifecycle (`onload`/`onunload`, main.ts:25-27, 69-71) is not modelled. `onload` saves the original `syncState` (main.ts:26) and installs both routines. `onunload` (main.ts:69-71) restores only `syncState`: `getScrollOffsetForSync` stays on the prototype and the cached anchors stay on the views, but the restored `syncState` never reads them.
- The Obsidian API is not part of this model. Its calls are represented as fields, an input sequence and a reload log, as described above.
- The `await` on `openFile` (main.ts:61) is not modelled. A reload is an instantaneous recorded request. Code that could run during the await, such as the user scrolling or another sync pass re-entering, is not modelled.
- JavaScript numbers are not modelled as floating point. Scroll offsets are unbounded integers, and only addition and subtraction are involved.
- `SyncScroll.Pane.SyncState` requires the members to be pairwise distinct, as the workspace lists each leaf once. With a repeated non-markdown leaf, the code would send it two reload requests, and the per-member postcondition does not describe that case.
- `SyncScroll.Pane.GetScrollOffsetForSync` and `SyncScroll.Pane.SyncState` require `isMarkdown`, because the source installs them on markdown views only.
- A reload's effect on the peer is not modelled. `openFile` (main.ts:61) reopens the peer on the source's file and view state, which can change its file, view state and view type. The model only records the request and leaves those fields as they were.
- The model assumes every `openFile` succeeds. In the program a rejected `openFile` ends `syncState` at main.ts:61: later peers are not visited and no boolean is returned.
- The view type `kind` and the markdown flag `isMarkdown` are independent fields in the model. The host keeps them consistent; `KindConsistent` states that, and only `SameTypeNeverReloads` assumes it.
