/**
 * Small groups of panes driven through the class methods, as a client of the plugin
 * would: each method allocates its own panes and states what one pass does to them.
 */
module Scenarios {
  import opened Wrappers
  import opened Baseline
  import opened SyncScroll

  /**
   * Two markdown panes anchored at 100 and 40. The first is scrolled to 130 and
   * synced: the second moves by the same 30 to 70, and the pass succeeds.
   */
  method TwoMarkdownPanes() returns (ok: bool, peerScroll: int, sourceScroll: int)
    ensures ok && peerScroll == 70 && sourceScroll == 130
  {
    var a := new Pane(Some("left"), "markdown", true, false, 100, "a.md", 1);
    var b := new Pane(Some("left"), "markdown", true, false, 40, "b.md", 2);
    var anchorA := a.GetScrollOffsetForSync("left");
    var anchorB := b.GetScrollOffsetForSync("left");
    a.scroll := 130;
    ok := a.SyncState(false, [a, b]);
    assert [a, b][1] == b;
    peerScroll := b.scroll;
    sourceScroll := a.scroll;
  }

  /**
   * A busy peer makes the pass fail and keeps its scroll and anchor, while a later
   * markdown peer in the same group is still moved.
   */
  method BusyPeerSkipped() returns (ok: bool, busyScroll: int, busyAnchor: Option<int>, laterScroll: int)
    ensures !ok && busyScroll == 10 && busyAnchor == None && laterScroll == 25
  {
    var a := new Pane(Some("g"), "markdown", true, false, 0, "a.md", 1);
    var c := new Pane(Some("g"), "markdown", true, true, 10, "c.md", 2);
    var d := new Pane(Some("g"), "markdown", true, false, 20, "d.md", 3);
    var anchorA := a.GetScrollOffsetForSync("g");
    var anchorD := d.GetScrollOffsetForSync("g");
    a.scroll := 5;
    ok := a.SyncState(false, [c, a, d]);
    assert [c, a, d][0] == c && [c, a, d][2] == d;
    busyScroll := c.scroll;
    busyAnchor := c.cachedOffset;
    laterScroll := d.scroll;
  }

  /**
   * Without the same-type restriction a peer of another type is asked to reopen the
   * source's file with its view state, and a markdown peer is scrolled, in one pass.
   * The source's anchor is captured by the pass itself, so the markdown peer lands on
   * its own anchor.
   */
  method MixedTypesReloaded() returns (ok: bool, requests: seq<Reload>, peerScroll: int)
    ensures ok && requests == [Reload("a.md", 7)] && peerScroll == 40
  {
    var a := new Pane(Some("g"), "markdown", true, false, 300, "a.md", 7);
    var b := new Pane(Some("g"), "markdown", true, false, 40, "b.md", 2);
    var p := new Pane(Some("g"), "pdf", false, false, 0, "p.pdf", 3);
    ok := a.SyncState(false, [a, p, b]);
    assert [a, p, b][1] == p && [a, p, b][2] == b;
    requests := p.reloads;
    peerScroll := b.scroll;
  }

  /** With the same-type restriction a peer of another type is left alone, busy or not. */
  method SameTypeOnly() returns (ok: bool, requests: seq<Reload>, anchor: Option<int>)
    ensures ok && requests == [] && anchor == None
  {
    var a := new Pane(Some("g"), "markdown", true, false, 300, "a.md", 7);
    var p := new Pane(Some("g"), "pdf", false, true, 0, "p.pdf", 3);
    ok := a.SyncState(true, [a, p]);
    requests := p.reloads;
    anchor := p.cachedOffset;
  }

  /** A pane whose leaf has the empty string as group is not synchronised at all. */
  method EmptyGroupFails() returns (ok: bool, anchor: Option<int>, peerScroll: int)
    ensures !ok && anchor == None && peerScroll == 40
  {
    var a := new Pane(Some(""), "markdown", true, false, 300, "a.md", 7);
    var b := new Pane(Some(""), "markdown", true, false, 40, "b.md", 2);
    ok := a.SyncState(false, [a, b]);
    anchor := a.cachedOffset;
    peerScroll := b.scroll;
  }

  /** A group whose only member is the source succeeds and leaves its scroll alone. */
  method AloneInGroup() returns (ok: bool, scroll: int, anchor: Option<int>)
    ensures ok && scroll == 55 && anchor == Some(55)
  {
    var a := new Pane(Some("solo"), "markdown", true, false, 55, "a.md", 7);
    ok := a.SyncState(true, [a]);
    scroll := a.scroll;
    anchor := a.cachedOffset;
  }
}
