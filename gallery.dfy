/**
 * The tile collection and its layout-target bookkeeping.
 *
 * A `Viewer` object holds the module-level state of the viewer: the tiles
 * (`objects`), one target array per layout (`targets.sphere`, `targets.helix`,
 * `targets.grid`), the last applied JSON snapshot (`jsonData`), the key list
 * taken at the initial load (`keysArray`) and the tweens scheduled by the last
 * transition. Network fetches are parameters: a method receives the parsed
 * document, or `None` when the fetch or the parse failed.
 */
module Gallery {
  import opened Layout

  datatype Option<T> = None | Some(value: T)

  type Key = string
  type Payload = string

  /** A parsed JSON document: its keys in `Object.keys` order, each with its caption. */
  type Snapshot = seq<(Key, Payload)>

  /** What `jsonData` holds: the promise returned by the initial fetch until that fetch
      succeeds, then the last applied document. */
  datatype Stored = Pending | Loaded(snapshot: Snapshot)

  /** `JSON.stringify(stored) === JSON.stringify(data)`. A promise serialises as `{}`,
      the same text as an empty document. */
  predicate SameJson(stored: Stored, data: Snapshot): (same: bool)
  {
    match stored
    case Pending => data == []
    case Loaded(s) => s == data
  }

  /** `Object.keys(s)`. */
  function Keys(s: Snapshot): (ks: seq<Key>)
  {
    seq(|s|, i requires 0 <= i < |s| => s[i].0)
  }

  /** `Object.keys(s)[Object.keys(s).length - 1]`, which is `undefined` for an empty document. */
  function LatestKey(s: Snapshot): (key: Option<Key>)
  {
    if |s| == 0 then None else Some(s[|s| - 1].0)
  }

  // ---------------------------------------------------------------------------
  // Tiles and their image references

  const S3Url: string := "https://vapop.s3.eu-west-2.amazonaws.com/"

  /** A tile, known by the image it shows; its DOM element and its current, randomly
      initialised position are not modelled. */
  datatype Tile = Tile(asset: string)

  /** Image reference of a key: the bucket URL followed by the key. */
  function AssetFor(key: Key): (src: string)
  {
    S3Url + key
  }

  /** Image reference for a possibly missing key: string concatenation turns a missing
      key into the text `undefined`. */
  function AssetOf(key: Option<Key>): (src: string)
  {
    match key
    case Some(k) => AssetFor(k)
    case None => AssetFor("undefined")
  }

  /** `src.slice(41)`: the popup's way of getting the key back from an image reference. */
  function KeyOfAsset(src: string): (key: string)
  {
    if |src| >= 41 then src[41..] else ""
  }

  /** Slicing off the first 41 characters recovers the key, because the bucket URL is
      exactly 41 characters long. */
  lemma AssetRoundTrip(key: Key)
    ensures |S3Url| == 41
    ensures KeyOfAsset(AssetFor(key)) == key
  {
  }

  /** One tile per key, in key order. */
  function Tiles(keys: seq<Key>): (tiles: seq<Tile>)
    ensures |tiles| == |keys|
  {
    if keys == [] then [] else Tiles(keys[..|keys| - 1]) + [Tile(AssetFor(keys[|keys| - 1]))]
  }

  /** Tile `i` shows the image of key `i`. */
  lemma {:induction false} TilesAt(keys: seq<Key>)
    ensures |Tiles(keys)| == |keys|
    ensures forall i :: 0 <= i < |keys| ==> Tiles(keys)[i] == Tile(AssetFor(keys[i]))
  {
    if keys != [] {
      TilesAt(keys[..|keys| - 1]);
    }
  }

  // ---------------------------------------------------------------------------
  // Bulk target arrays

  datatype LayoutKind = Sphere | Helix | Grid

  /** Target of tile `i` in a bulk build of `total` tiles. */
  function BulkTarget(kind: LayoutKind, i: int, total: int): (p: Pose)
    requires 0 <= i < total
  {
    match kind
    case Sphere => SphereTarget(i, total)
    case Helix => HelixTarget(i)
    case Grid => BulkGridTarget(i)
  }

  /** The first `count` entries of a bulk build of `total` tiles. */
  function BulkTargets(kind: LayoutKind, count: nat, total: nat): (ps: seq<Pose>)
    requires count <= total
    ensures |ps| == count
  {
    if count == 0 then [] else BulkTargets(kind, count - 1, total) + [BulkTarget(kind, count - 1, total)]
  }

  /** A bulk build has one entry per tile, entry `i` being tile `i`'s target. */
  lemma {:induction false} BulkTargetsAt(kind: LayoutKind, count: nat, total: nat)
    requires count <= total
    ensures |BulkTargets(kind, count, total)| == count
    ensures forall i :: 0 <= i < count ==> BulkTargets(kind, count, total)[i] == BulkTarget(kind, i, total)
  {
    if count > 0 {
      BulkTargetsAt(kind, count - 1, total);
    }
  }

  /** Helix targets do not depend on the total, so appending the next index's helix target
      to a bulk build gives exactly the bulk build one tile larger. */
  lemma {:induction false} HelixExtendsBulk(n: nat)
    ensures BulkTargets(Helix, n, n) + [HelixTarget(n)] == BulkTargets(Helix, n + 1, n + 1)
  {
    BulkTargetsAt(Helix, n, n);
    BulkTargetsAt(Helix, n, n + 1);
    assert BulkTargets(Helix, n, n) == BulkTargets(Helix, n, n + 1);
  }

  /** `addNewObject` computes the helix and grid targets from `key count - 1`, while the tile
      goes into slot `objects.length`. The helix target is the one a bulk build would give
      that slot exactly when the two agree; the grid target is then still one layer back. */
  lemma AppendedTargetsMatchSlot(slot: nat, keyCount: nat)
    ensures HelixTarget(keyCount - 1) == BulkTarget(Helix, slot, slot + 1) <==> keyCount == slot + 1
    ensures keyCount == slot + 1 ==>
      IncrementalGridTarget(keyCount - 1).z == BulkTarget(Grid, slot, slot + 1).z - 1000
  {
  }

  /** The incremental grid formula does not extend a bulk build: its last entry is one
      layer further back than the bulk build one tile larger would put it. */
  lemma GridDoesNotExtendBulk(n: nat)
    ensures BulkTargets(Grid, n, n) + [IncrementalGridTarget(n)] != BulkTargets(Grid, n + 1, n + 1)
  {
    BulkTargetsAt(Grid, n, n);
    var extended := BulkTargets(Grid, n, n) + [IncrementalGridTarget(n)];
    assert extended[n] == IncrementalGridTarget(n);
    BulkTargetsAt(Grid, n + 1, n + 1);
    IncrementalGridOneLayerBack(n);
  }

  /** The incremental sphere formula does not extend a bulk build either: the new entry sits
      at the pole, where no bulk sphere target lies, and the earlier entries were computed
      for the smaller total. */
  lemma SphereDoesNotExtendBulk(n: nat)
    ensures BulkTargets(Sphere, n, n) + [IncrementalSphereTarget()] != BulkTargets(Sphere, n + 1, n + 1)
  {
    BulkTargetsAt(Sphere, n, n);
    var extended := BulkTargets(Sphere, n, n) + [IncrementalSphereTarget()];
    assert extended[n] == IncrementalSphereTarget();
    BulkTargetsAt(Sphere, n + 1, n + 1);
    IncrementalSphereIsPole(n, n + 1);
  }

  // ---------------------------------------------------------------------------
  // Tweens

  /** An active tween: moving or turning one tile toward a target pose, or the extra
      tween whose only job is to redraw on every tick for `length` milliseconds. */
  datatype Tween = Move(tile: nat, to: Pose) | Turn(tile: nat, to: Pose) | Redraw(length: int)

  /** The position and rotation tweens of the first `n` tiles, in tile order. */
  function TileTweens(targets: seq<Pose>, n: nat): (tws: seq<Tween>)
    requires n <= |targets|
  {
    if n == 0 then [] else TileTweens(targets, n - 1) + [Move(n - 1, targets[n - 1]), Turn(n - 1, targets[n - 1])]
  }

  /** Everything a transition of `n` tiles toward `targets` schedules. */
  function Schedule(targets: seq<Pose>, n: nat, duration: int): (tws: seq<Tween>)
    requires n <= |targets|
  {
    TileTweens(targets, n) + [Redraw(duration * 2)]
  }

  /** Every tile gets exactly one position tween and one rotation tween, both toward its own
      entry of the chosen target array, and the schedule ends with a redraw tween of twice
      the duration. */
  lemma {:induction false} ScheduleAt(targets: seq<Pose>, n: nat, duration: int)
    requires n <= |targets|
    ensures |Schedule(targets, n, duration)| == 2 * n + 1
    ensures forall k :: 0 <= k < 2 * n ==>
      Schedule(targets, n, duration)[k] ==
        (if k % 2 == 0 then Move(k / 2, targets[k / 2]) else Turn(k / 2, targets[k / 2]))
    ensures Schedule(targets, n, duration)[2 * n] == Redraw(2 * duration)
  {
    TileTweensAt(targets, n);
  }

  /** The per-tile part of a transition has two tweens per tile: tween `2k` moves tile `k`
      and tween `2k + 1` turns it, both toward target `k`. */
  lemma {:induction false} TileTweensAt(targets: seq<Pose>, n: nat)
    requires n <= |targets|
    ensures |TileTweens(targets, n)| == 2 * n
    ensures forall k :: 0 <= k < 2 * n ==>
      TileTweens(targets, n)[k] ==
        (if k % 2 == 0 then Move(k / 2, targets[k / 2]) else Turn(k / 2, targets[k / 2]))
  {
    if n > 0 {
      TileTweensAt(targets, n - 1);
    }
  }

  /** Starting a transition cancels everything: each tween it leaves active either redraws or
      heads for the chosen layout's target of the tile it moves. */
  lemma ScheduleAimsAtLayout(targets: seq<Pose>, n: nat, duration: int)
    requires n <= |targets|
    ensures forall tw :: tw in Schedule(targets, n, duration) ==>
      tw.Redraw? || (tw.tile < n && tw.to == targets[tw.tile])
  {
    ScheduleAt(targets, n, duration);
    forall tw | tw in Schedule(targets, n, duration)
      ensures tw.Redraw? || (tw.tile < n && tw.to == targets[tw.tile])
    {
      var k :| 0 <= k < |Schedule(targets, n, duration)| && Schedule(targets, n, duration)[k] == tw;
    }
  }

  // ---------------------------------------------------------------------------
  // The collection

  class Viewer {
    var objects: seq<Tile>
    var sphere: seq<Pose>
    var helix: seq<Pose>
    var grid: seq<Pose>
    var jsonData: Stored
    var keysArray: seq<Key>
    /** The tweens scheduled by the last transition. */
    var tweens: seq<Tween>

    /** `targets[kind]`. */
    function Targets(kind: LayoutKind): (ps: seq<Pose>)
      reads this
    {
      match kind
      case Sphere => sphere
      case Helix => helix
      case Grid => grid
    }

    /** Every layout has a target for every tile, so a transition never reads past the end
        of a target array. This holds in every reachable state. */
    ghost predicate Valid()
      reads this
    {
      |sphere| >= |objects| && |helix| >= |objects| && |grid| >= |objects|
    }

    /** Every layout has exactly one target per tile. */
    ghost predicate Aligned()
      reads this
    {
      |sphere| == |objects| && |helix| == |objects| && |grid| == |objects|
    }

    /** The state before the initial fetch has completed. */
    constructor ()
      ensures objects == [] && sphere == [] && helix == [] && grid == []
      ensures jsonData == Pending && keysArray == [] && tweens == []
      ensures Valid() && Aligned()
    {
      objects, sphere, helix, grid := [], [], [], [];
      jsonData, keysArray, tweens := Pending, [], [];
    }

    /** `transform(targets[kind], duration)`: drop every active tween, then move and turn
        each tile toward its entry of the chosen target array and redraw meanwhile. */
    method Transform(kind: LayoutKind, duration: int)
      requires |Targets(kind)| >= |objects|
      modifies this`tweens
      ensures tweens == Schedule(Targets(kind), |objects|, duration)
    {
      var targets := Targets(kind);
      tweens := [];
      var i := 0;
      while i < |objects|
        invariant 0 <= i <= |objects|
        invariant tweens == TileTweens(targets, i)
      {
        tweens := tweens + [Move(i, targets[i]), Turn(i, targets[i])];
        i := i + 1;
      }
      tweens := tweens + [Redraw(duration * 2)];
    }

    /** `createShapes`: one tile per key of the loaded document, then one bulk target per
        tile (counting any tile already present) in every layout, then a transition to the
        sphere. */
    method CreateShapes()
      requires jsonData.Loaded? && keysArray == Keys(jsonData.snapshot)
      modifies this
      ensures Valid()
      ensures objects == old(objects) + Tiles(keysArray)
      ensures sphere == old(sphere) + BulkTargets(Sphere, |objects|, |objects|)
      ensures helix == old(helix) + BulkTargets(Helix, |objects|, |objects|)
      ensures grid == old(grid) + BulkTargets(Grid, |objects|, |objects|)
      ensures tweens == Schedule(sphere, |objects|, 2000)
      ensures jsonData == old(jsonData) && keysArray == old(keysArray)
    {
      PushTiles();
      var l := |objects|;
      PushSphereTargets();
      PushHelixTargets();
      PushGridTargets();
      Transform(Sphere, 2000);
    }

    /** The first loop of `createShapes`: a tile for each key, showing that key's image. */
    method PushTiles()
      requires jsonData.Loaded? && keysArray == Keys(jsonData.snapshot)
      modifies this`objects
      ensures objects == old(objects) + Tiles(keysArray)
    {
      var i := 0;
      while i < |jsonData.snapshot|
        invariant 0 <= i <= |keysArray|
        invariant objects == old(objects) + Tiles(keysArray[..i])
      {
        assert keysArray[..i + 1][..i] == keysArray[..i];
        objects := objects + [Tile(AssetFor(keysArray[i]))];
        i := i + 1;
      }
      assert keysArray[..i] == keysArray;
    }

    /** The sphere loop of `createShapes`, over all `l = objects.length` tiles. */
    method PushSphereTargets()
      modifies this`sphere
      ensures sphere == old(sphere) + BulkTargets(Sphere, |objects|, |objects|)
    {
      var l := |objects|;
      var i := 0;
      while i < l
        invariant 0 <= i <= l
        invariant sphere == old(sphere) + BulkTargets(Sphere, i, l)
      {
        sphere := sphere + [SphereTarget(i, l)];
        i := i + 1;
      }
    }

    /** The helix loop of `createShapes`. */
    method PushHelixTargets()
      modifies this`helix
      ensures helix == old(helix) + BulkTargets(Helix, |objects|, |objects|)
    {
      var l := |objects|;
      var i := 0;
      while i < l
        invariant 0 <= i <= l
        invariant helix == old(helix) + BulkTargets(Helix, i, l)
      {
        helix := helix + [HelixTarget(i)];
        i := i + 1;
      }
    }

    /** The grid loop of `createShapes`. */
    method PushGridTargets()
      modifies this`grid
      ensures grid == old(grid) + BulkTargets(Grid, |objects|, |objects|)
    {
      var i := 0;
      while i < |objects|
        invariant 0 <= i <= |objects|
        invariant grid == old(grid) + BulkTargets(Grid, i, |objects|)
      {
        grid := grid + [BulkGridTarget(i)];
        i := i + 1;
      }
    }

    /** The success path of `initialFetchS3Object`: store the document and its keys, then
        build the shapes. A failed fetch (`None`) leaves everything as it was. */
    method InitialFetch(fetched: Option<Snapshot>)
      requires Valid()
      modifies this
      ensures Valid()
      ensures fetched.None? ==> unchanged(this)
      ensures fetched.Some? ==>
        && jsonData == Loaded(fetched.value)
        && keysArray == Keys(fetched.value)
        && objects == old(objects) + Tiles(Keys(fetched.value))
        && sphere == old(sphere) + BulkTargets(Sphere, |objects|, |objects|)
        && helix == old(helix) + BulkTargets(Helix, |objects|, |objects|)
        && grid == old(grid) + BulkTargets(Grid, |objects|, |objects|)
        && tweens == Schedule(sphere, |objects|, 2000)
      ensures fetched.Some? && old(objects) == [] && old(Aligned()) ==>
        Aligned() && |objects| == |fetched.value|
    {
      if fetched.Some? {
        jsonData := Loaded(fetched.value);
        keysArray := Keys(fetched.value);
        CreateShapes();
        TilesAt(keysArray);
        BulkTargetsAt(Sphere, |objects|, |objects|);
        BulkTargetsAt(Helix, |objects|, |objects|);
        BulkTargetsAt(Grid, |objects|, |objects|);
      }
    }

    /** `addNewObject`: take the last key of the stored document as the new tile, append one
        target to each layout computed from index `key count - 1`, and transition to the
        sphere. */
    method AddNewObject()
      requires Valid() && jsonData.Loaded?
      modifies this
      ensures Valid()
      ensures jsonData == old(jsonData) && keysArray == old(keysArray)
      ensures objects == old(objects) + [Tile(AssetOf(LatestKey(jsonData.snapshot)))]
      ensures sphere == old(sphere) + [IncrementalSphereTarget()]
      ensures helix == old(helix) + [HelixTarget(|jsonData.snapshot| - 1)]
      ensures grid == old(grid) + [IncrementalGridTarget(|jsonData.snapshot| - 1)]
      ensures tweens == Schedule(sphere, |objects|, 2000)
      ensures old(Aligned()) ==> Aligned()
    {
      var keys := Keys(jsonData.snapshot);
      var latestObjectKey := if |keys| > 0 then Some(keys[|keys| - 1]) else None;
      var index := |keys| - 1;

      objects := objects + [Tile(AssetOf(latestObjectKey))];
      sphere := sphere + [IncrementalSphereTarget()];
      helix := helix + [HelixTarget(index)];
      grid := grid + [IncrementalGridTarget(index)];

      Transform(Sphere, 2000);
    }

    /** `checkForJsonUpdates`: a failed fetch or a document that serialises like the stored
        one changes nothing; any other document replaces the stored one and adds exactly one
        tile, however many keys differ. */
    method CheckForJsonUpdates(fetched: Option<Snapshot>)
      requires Valid()
      modifies this
      ensures Valid()
      ensures fetched.None? || SameJson(old(jsonData), fetched.value) ==> unchanged(this)
      ensures fetched.Some? && !SameJson(old(jsonData), fetched.value) ==>
        && jsonData == Loaded(fetched.value)
        && objects == old(objects) + [Tile(AssetOf(LatestKey(fetched.value)))]
        && sphere == old(sphere) + [IncrementalSphereTarget()]
        && helix == old(helix) + [HelixTarget(|fetched.value| - 1)]
        && grid == old(grid) + [IncrementalGridTarget(|fetched.value| - 1)]
        && tweens == Schedule(sphere, |objects|, 2000)
        && keysArray == old(keysArray)
      ensures old(Aligned()) ==> Aligned()
    {
      if fetched.Some? && !SameJson(jsonData, fetched.value) {
        jsonData := Loaded(fetched.value);
        AddNewObject();
      }
    }
  }
}
