/**
 * The baseline tracker of the scroll-sync plugin (main.ts, getScrollOffsetForSync).
 *
 * Each pane keeps a cached anchor offset and the sync group the anchor was captured
 * under. Relative scroll synchronisation measures every pane's motion against that
 * anchor, so the anchor must stay fixed while the group stays the same and be
 * recaptured from the live scroll when the group changes.
 *
 * This module holds the value-level data model of a pane and the specification of
 * the cache rule; the class that updates panes in place is in module SyncScroll.
 */
module Baseline {
  import opened Wrappers

  /** The host's view type name, as returned by getViewType() ("markdown", "pdf", ...). */
  type ViewType = string

  /** Path of the file a pane shows. */
  type FilePath = string

  /** The view state handed to openFile; an opaque token produced by the host. */
  type ViewState = nat

  /** A recorded `leaf.openFile(file, viewState)` request. */
  datatype Reload = Reload(file: FilePath, state: ViewState)

  /**
   * A snapshot of every field of a pane: the leaf's group and busy flag, the view's
   * type, whether the view is a markdown view, its live scroll, the two hidden cache
   * fields, the file and view state the view would hand to a peer, and the log of
   * reload requests the leaf has received.
   */
  datatype PaneState = PaneState(
    group: Option<string>,
    kind: ViewType,
    isMarkdown: bool,
    working: bool,
    scroll: int,
    cachedOffset: Option<int>,
    cachedGroup: Option<string>,
    file: FilePath,
    viewState: ViewState,
    reloads: seq<Reload>)

  /** The pane holds an anchor captured under group `g`. */
  predicate CachedFor(p: PaneState, g: string)
  {
    p.cachedGroup == Some(g) && p.cachedOffset.Some?
  }

  /**
   * What getScrollOffsetForSync(g) returns and the pane it leaves behind: a valid
   * cached anchor is returned as is; otherwise the live scroll is captured as the
   * anchor for `g`.
   */
  function Anchor(p: PaneState, g: string): (r: (int, PaneState))
    ensures CachedFor(p, g) ==> r == (p.cachedOffset.value, p)
    ensures !CachedFor(p, g) ==> r.0 == p.scroll
    ensures CachedFor(r.1, g) && r.1.cachedOffset == Some(r.0)
    ensures r.1 == p.(cachedOffset := r.1.cachedOffset, cachedGroup := r.1.cachedGroup)
  {
    var offset := if p.cachedGroup != Some(g) then None else p.cachedOffset;
    if offset.None? then
      (p.scroll, p.(cachedOffset := Some(p.scroll), cachedGroup := Some(g)))
    else
      (offset.value, p)
  }

  /**
   * Two consecutive queries under the same group return the same anchor, even when
   * the live scroll moved in between, and the second query changes nothing.
   */
  lemma AnchorStable(p: PaneState, g: string, moved: int)
    ensures var q := Anchor(p, g).1.(scroll := moved);
            Anchor(q, g) == (Anchor(p, g).0, q)
  {
  }

  /** A query under a group other than the cached one recaptures the live scroll. */
  lemma AnchorRecapturedOnGroupChange(p: PaneState, g: string, g': string)
    requires CachedFor(p, g) && g' != g
    ensures Anchor(p, g').0 == p.scroll
    ensures Anchor(p, g').1.cachedGroup == Some(g') && Anchor(p, g').1.cachedOffset == Some(p.scroll)
  {
  }

  /** What can happen to one pane between sync passes: the host scrolls it, or its anchor is queried. */
  datatype Event = Scrolled(to: int) | Queried(group: string)

  /** The answers a pane gives to the queries in `events`, in order. */
  function Answers(p: PaneState, events: seq<Event>): (r: seq<int>)
    decreases |events|
  {
    if events == [] then []
    else match events[0]
      case Scrolled(x) => Answers(p.(scroll := x), events[1..])
      case Queried(g) => [Anchor(p, g).0] + Answers(Anchor(p, g).1, events[1..])
  }

  /** Every query in `events` is under group `g`. */
  predicate OnlyGroup(events: seq<Event>, g: string)
  {
    forall i :: 0 <= i < |events| && events[i].Queried? ==> events[i].group == g
  }

  /** Once an anchor `v` is cached for `g`, every later query under `g` answers `v`. */
  lemma {:induction false} CachedAnchorAnswersAll(p: PaneState, g: string, v: int, events: seq<Event>)
    requires p.cachedGroup == Some(g) && p.cachedOffset == Some(v)
    requires OnlyGroup(events, g)
    ensures forall i :: 0 <= i < |Answers(p, events)| ==> Answers(p, events)[i] == v
    decreases |events|
  {
    if events != [] {
      assert OnlyGroup(events[1..], g) by {
        forall i | 0 <= i < |events[1..]| && events[1..][i].Queried?
          ensures events[1..][i].group == g
        {
          assert events[1..][i] == events[i + 1];
        }
      }
      match events[0]
      case Scrolled(x) =>
        CachedAnchorAnswersAll(p.(scroll := x), g, v, events[1..]);
      case Queried(h) =>
        assert h == g;
        CachedAnchorAnswersAll(Anchor(p, g).1, g, v, events[1..]);
    }
  }

  /**
   * Anchor stability: as long as the group stays `g`, however the live scroll moves,
   * every query answers the same anchor as the first one.
   */
  lemma {:induction false} AnchorFixedWhileGroupUnchanged(p: PaneState, g: string, events: seq<Event>)
    requires OnlyGroup(events, g)
    ensures forall i :: 0 <= i < |Answers(p, events)| ==> Answers(p, events)[i] == Answers(p, events)[0]
    decreases |events|
  {
    if events != [] {
      assert OnlyGroup(events[1..], g) by {
        forall i | 0 <= i < |events[1..]| && events[1..][i].Queried?
          ensures events[1..][i].group == g
        {
          assert events[1..][i] == events[i + 1];
        }
      }
      match events[0]
      case Scrolled(x) =>
        AnchorFixedWhileGroupUnchanged(p.(scroll := x), g, events[1..]);
      case Queried(h) =>
        assert h == g;
        var (v, q) := Anchor(p, g);
        CachedAnchorAnswersAll(q, g, v, events[1..]);
    }
  }
}
