/**
 * The sync engine of the scroll-sync plugin (main.ts, syncState) and the pane it
 * acts on.
 *
 * A sync pass starts from a markdown pane whose leaf belongs to a named group. It
 * reads the pane's live scroll and anchor, then visits every other leaf of the
 * group. With `sameType` set, a peer of another view type is left alone and does not
 * affect the result. A selected peer that is busy is skipped and makes the pass
 * report failure. A selected markdown peer is scrolled by the same amount the source
 * moved away from its own anchor, measured from the peer's own anchor; any other
 * selected peer is asked to reopen the source's file with the source's view state.
 */
module SyncScroll {
  import opened Wrappers
  import opened Baseline

  /** A leaf has a group only when its group is neither null nor the empty string. */
  predicate Grouped(group: Option<string>)
  {
    group.Some? && group.value != ""
  }

  /** What a pass reads from its source before visiting the peers. */
  datatype SyncContext = SyncContext(
    group: string,
    sameType: bool,
    kind: ViewType,
    live: int,
    srcAnchor: int,
    file: FilePath,
    viewState: ViewState)

  /**
   * The context of a pass started from `src`: its group, its type, its live scroll
   * (read before the anchor) and its anchor for the group.
   */
  function ContextOf(src: PaneState, sameType: bool): (c: SyncContext)
    requires Grouped(src.group)
    ensures !CachedFor(src, src.group.value) ==> c.srcAnchor == c.live
    ensures CachedFor(src, src.group.value) ==> c.srcAnchor == src.cachedOffset.value
  {
    SyncContext(src.group.value, sameType, src.kind, src.scroll,
                Anchor(src, src.group.value).0, src.file, src.viewState)
  }

  /** The peer takes part in the pass: types need to match only when `sameType` is set. */
  predicate Selected(p: PaneState, c: SyncContext)
  {
    !c.sameType || p.kind == c.kind
  }

  /** The peer takes part in the pass but is busy, so the pass fails on it. */
  predicate Blocked(p: PaneState, c: SyncContext)
  {
    Selected(p, c) && p.working
  }

  /** The scroll a reached markdown peer is moved to: its own anchor plus the source's displacement. */
  function Target(c: SyncContext, destAnchor: int): int
  {
    c.live - c.srcAnchor + destAnchor
  }

  /**
   * The state a peer other than the source is left in by one pass. The model leaves
   * a peer's group, type, busy flag, file and view state as they were; a reload is
   * only recorded. A peer the pass does not select, or finds busy, is left exactly
   * as it was.
   */
  function Visit(p: PaneState, c: SyncContext): (r: PaneState)
    ensures r.group == p.group && r.kind == p.kind && r.isMarkdown == p.isMarkdown
    ensures r.working == p.working && r.file == p.file && r.viewState == p.viewState
    ensures !Selected(p, c) || p.working ==> r == p
    ensures r.reloads == p.reloads || r.reloads == p.reloads + [Reload(c.file, c.viewState)]
    ensures p.isMarkdown ==> r.reloads == p.reloads
  {
    if !Selected(p, c) || p.working then p
    else if p.isMarkdown then
      var (destAnchor, q) := Anchor(p, c.group);
      q.(scroll := Target(c, destAnchor))
    else
      p.(reloads := p.reloads + [Reload(c.file, c.viewState)])
  }

  /**
   * Relative-delta law: a reached markdown peer lands on `live - srcAnchor + destAnchor`
   * and holds its anchor for the group, so afterwards it stands as far from its own
   * anchor as the source stands from the source's anchor.
   */
  lemma RelativeDelta(p: PaneState, c: SyncContext)
    requires Selected(p, c) && !p.working && p.isMarkdown
    ensures Visit(p, c).scroll == c.live - c.srcAnchor + Anchor(p, c.group).0
    ensures var q := Visit(p, c);
            q.scroll - Anchor(q, c.group).0 == c.live - c.srcAnchor
  {
  }

  /**
   * A reached peer that is not a markdown view gets exactly one reload request, for
   * the source's file and view state, and no scroll or anchor change.
   */
  lemma ReloadRequested(p: PaneState, c: SyncContext)
    requires Selected(p, c) && !p.working && !p.isMarkdown
    ensures Visit(p, c) == p.(reloads := p.reloads + [Reload(c.file, c.viewState)])
  {
  }

  /** With `sameType` set, a peer of another view type is never reloaded nor scrolled. */
  lemma SameTypeLeavesOthersAlone(p: PaneState, c: SyncContext)
    requires c.sameType && p.kind != c.kind
    ensures Visit(p, c) == p && !Blocked(p, c)
  {
  }

  /**
   * In the host a view is a markdown view exactly when its view type is "markdown";
   * the model keeps the two fields apart, and this ties them together.
   */
  predicate KindConsistent(p: PaneState)
  {
    p.isMarkdown <==> p.kind == "markdown"
  }

  /**
   * A same-type pass started from a markdown view never issues a reload: every peer
   * it selects is a markdown view too.
   */
  lemma SameTypeNeverReloads(src: PaneState, p: PaneState)
    requires Grouped(src.group) && src.isMarkdown && KindConsistent(src) && KindConsistent(p)
    ensures Visit(p, ContextOf(src, true)).reloads == p.reloads
  {
  }

  /**
   * When the source's anchor is captured by the pass itself, the source has not moved
   * relative to it, and every reached markdown peer lands exactly on its own anchor.
   */
  lemma FreshSourceAnchor(src: PaneState, sameType: bool, p: PaneState)
    requires Grouped(src.group) && !CachedFor(src, src.group.value)
    requires Selected(p, ContextOf(src, sameType)) && !p.working && p.isMarkdown
    ensures Visit(p, ContextOf(src, sameType)).scroll == Anchor(p, src.group.value).0
  {
  }

  /**
   * The loop body of a sync pass for one peer other than the source: a selected
   * peer that is busy is reported and left alone; a selected markdown peer gets its
   * anchor for the group and is scrolled to the source's displacement from that
   * anchor; any other selected peer receives a reload request.
   */
  method SyncPeer(peer: Pane, c: SyncContext) returns (blocked: bool)
    modifies peer
    ensures blocked == Blocked(old(peer.Snapshot()), c)
    ensures peer.Snapshot() == Visit(old(peer.Snapshot()), c)
  {
    blocked := false;
    var isSameType := peer.kind == c.kind;
    if !c.sameType || isSameType {
      if peer.working {
        return true;
      }
      if peer.isMarkdown {
        var destScrollOffset := peer.GetScrollOffsetForSync(c.group);
        peer.scroll := c.live - c.srcAnchor + destScrollOffset;
      } else {
        peer.reloads := peer.reloads + [Reload(c.file, c.viewState)];
      }
    }
  }

  /**
   * A leaf together with the view it shows. `scroll`, `cachedOffset` and
   * `cachedGroup` belong to the view's current mode and hidden fields and are only
   * meaningful for a markdown view; `reloads` records the openFile requests the
   * leaf has received.
   */
  class Pane {
    var group: Option<string>
    var kind: ViewType
    var isMarkdown: bool
    var working: bool
    var scroll: int
    var cachedOffset: Option<int>
    var cachedGroup: Option<string>
    var file: FilePath
    var viewState: ViewState
    var reloads: seq<Reload>

    /** A pane with no anchor cached and no reload received yet. */
    constructor (group: Option<string>, kind: ViewType, isMarkdown: bool, working: bool,
                 scroll: int, file: FilePath, viewState: ViewState)
      ensures Snapshot() == PaneState(group, kind, isMarkdown, working, scroll,
                                      None, None, file, viewState, [])
    {
      this.group := group;
      this.kind := kind;
      this.isMarkdown := isMarkdown;
      this.working := working;
      this.scroll := scroll;
      this.cachedOffset := None;
      this.cachedGroup := None;
      this.file := file;
      this.viewState := viewState;
      this.reloads := [];
    }

    /** All fields of the pane as a value. */
    function Snapshot(): PaneState
      reads this
    {
      PaneState(group, kind, isMarkdown, working, scroll, cachedOffset, cachedGroup,
                file, viewState, reloads)
    }

    /**
     * The pane's anchor for group `g`: the cached offset when it was captured under
     * `g`, otherwise the live scroll, which becomes the new anchor for `g`.
     */
    method GetScrollOffsetForSync(g: string) returns (offset: int)
      requires isMarkdown
      modifies this
      ensures (offset, Snapshot()) == Anchor(old(Snapshot()), g)
      ensures old(CachedFor(Snapshot(), g)) ==> offset == old(cachedOffset.value) && Snapshot() == old(Snapshot())
      ensures !old(CachedFor(Snapshot(), g)) ==> offset == scroll == old(scroll)
      ensures cachedOffset == Some(offset) && cachedGroup == Some(g)
    {
      var scrollOffset := cachedOffset;
      if cachedGroup != Some(g) {
        scrollOffset := None;
      }
      if scrollOffset.None? {
        var currentScroll := scroll;
        cachedOffset := Some(currentScroll);
        cachedGroup := Some(g);
        return currentScroll;
      }
      return scrollOffset.value;
    }

    /**
     * One sync pass from this pane over `members`, the leaves of its group in the
     * order the workspace lists them (this pane among them). Returns false at once
     * when the leaf has no group; otherwise the source only gets its anchor captured,
     * every other member ends in the state Visit gives it, and the result is true
     * exactly when no selected member was busy.
     */
    method SyncState(sameType: bool, members: seq<Pane>) returns (ok: bool)
      requires isMarkdown
      requires forall i, j :: 0 <= i < j < |members| ==> members[i] != members[j]
      modifies this, members
      ensures !Grouped(old(group)) ==>
        !ok && Snapshot() == old(Snapshot()) &&
        forall i :: 0 <= i < |members| ==> members[i].Snapshot() == old(members[i].Snapshot())
      ensures Grouped(old(group)) ==>
        Snapshot() == Anchor(old(Snapshot()), old(group.value)).1
      ensures Grouped(old(group)) ==>
        var c := ContextOf(old(Snapshot()), sameType);
        (ok <==> forall i :: 0 <= i < |members| && members[i] != this ==> !Blocked(old(members[i].Snapshot()), c)) &&
        forall i :: 0 <= i < |members| && members[i] != this ==>
          members[i].Snapshot() == Visit(old(members[i].Snapshot()), c)
    {
      var g := group;
      if !Grouped(g) {
        return false;
      }
      var syncViewState := viewState;
      var currentScroll := scroll;
      ghost var before := Snapshot();
      var srcScrollOffset := GetScrollOffsetForSync(g.value);
      var c := SyncContext(g.value, sameType, kind, currentScroll, srcScrollOffset, file, syncViewState);
      assert c == ContextOf(before, sameType);
      ghost var after := Snapshot();
      ok := true;
      for i := 0 to |members|
        invariant Snapshot() == after
        invariant forall k :: 0 <= k < i && members[k] != this ==>
          members[k].Snapshot() == Visit(old(members[k].Snapshot()), c)
        invariant forall k :: i <= k < |members| && members[k] != this ==>
          members[k].Snapshot() == old(members[k].Snapshot())
        invariant ok <==> forall k :: 0 <= k < i && members[k] != this ==> !Blocked(old(members[k].Snapshot()), c)
      {
        var peer := members[i];
        if peer == this {
          continue;
        }
        var blocked := SyncPeer(peer, c);
        if blocked {
          ok := false;
        }
      }
    }
  }
}
