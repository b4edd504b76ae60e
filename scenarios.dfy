/**
 * Concrete call sequences on the collection: each method drives a fresh `Viewer`
 * through a sequence of fetch results and reports what it ends up holding. Their
 * postconditions follow from the contracts of `Viewer` and the lemmas about `Tiles` and
 * `BulkTargets`.
 */
module Scenarios {
  import opened Layout
  import opened Gallery

  /** Load two images, then poll a document with a third key appended: one tile is added
      for the new key at slot 2, and every target array has three entries. */
  method LoadThenGrow() returns (tiles: seq<Tile>, sphere: seq<Pose>, helix: seq<Pose>, grid: seq<Pose>, tweens: seq<Tween>)
    ensures tiles == [Tile(S3Url + "a.png"), Tile(S3Url + "b.png"), Tile(S3Url + "c.png")]
    ensures grid == [InGrid(-800, 800, -1000), InGrid(-400, 800, -1000), InGrid(0, 800, -2000)]
    ensures helix == [HelixTarget(0), HelixTarget(1), HelixTarget(2)]
    ensures sphere == [SphereTarget(0, 2), SphereTarget(1, 2), IncrementalSphereTarget()]
    ensures tweens == Schedule(sphere, 3, 2000)
  {
    var g := new Viewer();
    var first: Snapshot := [("a.png", "cap-a"), ("b.png", "cap-b")];
    g.InitialFetch(Some(first));
    assert Keys(first) == ["a.png", "b.png"];
    assert g.objects == [Tile(S3Url + "a.png"), Tile(S3Url + "b.png")];
    BulkTargetsAt(Grid, 2, 2);
    BulkTargetsAt(Helix, 2, 2);
    BulkTargetsAt(Sphere, 2, 2);
    assert g.grid == [BulkGridTarget(0), BulkGridTarget(1)];

    var second: Snapshot := first + [("c.png", "cap-c")];
    g.CheckForJsonUpdates(Some(second));
    tiles, sphere, helix, grid, tweens := g.objects, g.sphere, g.helix, g.grid, g.tweens;
  }

  /** Polling the same document twice, with the helix button pressed in between: the second
      poll adds nothing and leaves the helix transition running rather than restarting the
      sphere one. */
  method RepeatPoll() returns (afterFirst: nat, afterSecond: nat, restarted: bool)
    ensures afterFirst == 3 && afterSecond == 3 && !restarted
  {
    var g := new Viewer();
    var first: Snapshot := [("a.png", "cap-a"), ("b.png", "cap-b")];
    g.InitialFetch(Some(first));
    var second: Snapshot := first + [("c.png", "cap-c")];
    g.CheckForJsonUpdates(Some(second));
    afterFirst := |g.objects|;
    g.Transform(Helix, 2000);
    var before := g.tweens;
    g.CheckForJsonUpdates(Some(second));
    afterSecond := |g.objects|;
    restarted := g.tweens != before;
  }

  /** A caption edit after a one-key growth: the document keeps its key count, so the second
      added tile is computed for the same index as the first and shares all three of its
      targets. */
  method CaptionEdit() returns (tileCount: nat, sameTargets: bool)
    ensures tileCount == 4 && sameTargets
  {
    var g := new Viewer();
    var first: Snapshot := [("a.png", "cap-a"), ("b.png", "cap-b")];
    g.InitialFetch(Some(first));
    assert Keys(first) == ["a.png", "b.png"];
    BulkTargetsAt(Sphere, 2, 2);
    g.CheckForJsonUpdates(Some(first + [("c.png", "cap-c")]));
    g.CheckForJsonUpdates(Some(first + [("c.png", "new caption")]));
    tileCount := |g.objects|;
    sameTargets := g.sphere[2] == g.sphere[3] && g.helix[2] == g.helix[3] && g.grid[2] == g.grid[3];
  }

  /** Three keys arrive between two polls: only the last of them becomes a tile, and its
      helix target is computed for index 4 although it occupies slot 2. */
  method BurstPoll() returns (tiles: seq<Tile>, helix: seq<Pose>)
    ensures tiles == [Tile(S3Url + "a.png"), Tile(S3Url + "b.png"), Tile(S3Url + "e.png")]
    ensures helix == [HelixTarget(0), HelixTarget(1), HelixTarget(4)]
  {
    var g := new Viewer();
    var first: Snapshot := [("a.png", "cap-a"), ("b.png", "cap-b")];
    g.InitialFetch(Some(first));
    assert Keys(first) == ["a.png", "b.png"];
    BulkTargetsAt(Helix, 2, 2);
    var later: Snapshot := first + [("c.png", "cap-c"), ("d.png", "cap-d"), ("e.png", "cap-e")];
    g.CheckForJsonUpdates(Some(later));
    tiles, helix := g.objects, g.helix;
  }

  /** A poll that returns an empty document after two images were loaded: the new tile shows
      the image named `undefined`, and its grid target lies outside the raster. */
  method EmptiedPoll() returns (last: Tile, lastGrid: Pose, lastHelix: Pose)
    ensures last == Tile(S3Url + "undefined")
    ensures lastGrid == InGrid(-1200, 1200, -3000)
    ensures lastHelix == OnCylinder(1000, -1, 460)
  {
    var g := new Viewer();
    g.InitialFetch(Some([("a.png", "cap-a"), ("b.png", "cap-b")]));
    g.CheckForJsonUpdates(Some([]));
    last, lastGrid, lastHelix := g.objects[|g.objects| - 1], g.grid[|g.grid| - 1], g.helix[|g.helix| - 1];
  }

  /** A poll that detects a document before the initial fetch has finished adds a tile;
      when the initial fetch then lands, its target loops also cover that tile, so every
      target array ends up one entry longer than the tile list. */
  method EarlyPoll() returns (tileCount: nat, sphereCount: nat, helixCount: nat, gridCount: nat)
    ensures tileCount == 2 && sphereCount == 3 && helixCount == 3 && gridCount == 3
  {
    var g := new Viewer();
    var doc: Snapshot := [("a.png", "cap-a")];
    g.CheckForJsonUpdates(Some(doc));
    g.InitialFetch(Some(doc));
    assert |Keys(doc)| == 1;
    TilesAt(Keys(doc));
    BulkTargetsAt(Sphere, 2, 2);
    BulkTargetsAt(Helix, 2, 2);
    BulkTargetsAt(Grid, 2, 2);
    tileCount, sphereCount, helixCount, gridCount := |g.objects|, |g.sphere|, |g.helix|, |g.grid|;
  }

  /** A failed initial fetch leaves the document pending; a later poll of an empty document
      then serialises like the pending one and changes nothing. */
  method FailedLoadThenEmptyPoll() returns (tileCount: nat, tweenCount: nat)
    ensures tileCount == 0 && tweenCount == 0
  {
    var g := new Viewer();
    g.InitialFetch(None);
    g.CheckForJsonUpdates(Some([]));
    tileCount, tweenCount := |g.objects|, |g.tweens|;
  }
}
