/**
 * The game's entities: the diagonal scrolling Track (a chained ribbon of
 * background tiles kept in ascending-y draw order) and the autonomous Racer
 * whose screen position is locked to the same diagonal.
 *
 * JavaScript numbers are modelled as `real` (no IEEE rounding), and a tile
 * object as an immutable `Tile` value that the Track replaces in its list
 * when the source mutates the object's fields.
 */
module Entities {
  import opened Optional

  // ---------------------------------------------------------------------
  // Constants
  // ---------------------------------------------------------------------

  /** Distance along the diagonal after which a Racer has finished. */
  const FinishDistance: real := 10.0
  /** Slope a Racer follows: x moves by this much per unit of progress. */
  const DiagonalRatio: real := -1.67
  /** Fraction of the gap to the target speed a Racer closes per update. */
  const SpeedSmoothing: real := 0.05

  /** y of the first tile of a freshly generated track. */
  const FirstTileY: real := -550.0
  const DefaultZoom: real := 1.61
  const DefaultOffsetXRatio: real := 1.67
  const DefaultChainHeight: real := 800.0
  const FinishName: string := "finish"

  /** The fixed order of tile assets, from the back of the track to the front. */
  const DefaultSequence: seq<string> :=
    ["env2", "start", "env1", "env2", "env1", "env2", "env1",
     "env2", "env1", "env2", "finish", "env2", "env2", "env2"]

  // ---------------------------------------------------------------------
  // Tiles and track geometry
  // ---------------------------------------------------------------------

  /** A loaded image, identified by the file it was loaded from. */
  datatype Image = Image(src: string)

  /**
   * One background tile. `asset` is `None` when the image named `name` did
   * not load. `renderX`/`renderY` are the optional smoothed render position
   * the renderer honours; this Track never sets them.
   */
  datatype Tile = Tile(asset: Option<Image>, name: string, x: real, y: real, w: real, h: real,
                       renderX: Option<real>, renderY: Option<real>)

  /** Everything `generate` reads from the Track: the loaded images, the zoom-derived size, the diagonal and the sequence. */
  datatype Config = Config(assets: map<string, Image>, zoomFactor: real, width: real, height: real,
                           offsetXRatio: real, chainHeight: real, initialX: real, sequence: seq<string>)

  /** Tile width at a zoom factor. */
  function ZoomedWidth(zoom: real): real { 1200.0 * zoom }
  /** Tile height at a zoom factor. */
  function ZoomedHeight(zoom: real): real { 1800.0 * zoom }
  /** The x of the first tile that centres a tile of width `width` on the 1200-wide canvas. */
  function CenteredX(width: real): real { -(width / 2.0) + 600.0 }

  /** The configuration a new Track starts with. */
  function DefaultConfig(assets: map<string, Image>): (c: Config)
    ensures c.width == 1932.0 && c.height == 2898.0 && c.initialX == -366.0
  {
    var width := ZoomedWidth(DefaultZoom);
    Config(assets, DefaultZoom, width, ZoomedHeight(DefaultZoom), DefaultOffsetXRatio,
           DefaultChainHeight, CenteredX(width), DefaultSequence)
  }

  /** The loaded image for an asset name; a name that failed to load has none. */
  function AssetFor(assets: map<string, Image>, name: string): Option<Image> {
    if name in assets then Some(assets[name]) else None
  }

  /** The i-th tile of the chain, before any sorting or movement. */
  function ChainTile(c: Config, i: nat): Tile
    requires i < |c.sequence|
  {
    var name := c.sequence[i];
    Tile(AssetFor(c.assets, name), name,
         c.initialX - (i as real) * (c.chainHeight * c.offsetXRatio),
         FirstTileY + (i as real) * c.chainHeight,
         c.width, c.height, None, None)
  }

  /** The tiles in the order the generating loop pushes them. */
  function Layout(c: Config): seq<Tile> {
    seq(|c.sequence|, i requires 0 <= i < |c.sequence| => ChainTile(c, i))
  }

  // ---------------------------------------------------------------------
  // Ordering by y (the stable library sort with comparator a.y - b.y)
  // ---------------------------------------------------------------------

  predicate SortedByY(s: seq<Tile>) {
    forall i, j :: 0 <= i < j < |s| ==> s[i].y <= s[j].y
  }

  predicate StrictlyDescendingByY(s: seq<Tile>) {
    forall i, j :: 0 <= i < j < |s| ==> s[i].y > s[j].y
  }

  function Reversed(s: seq<Tile>): seq<Tile> {
    seq(|s|, i requires 0 <= i < |s| => s[|s| - 1 - i])
  }

  /** Places `t` before the first element of `s` whose y is not smaller (so ties keep t first). */
  function InsertByY(t: Tile, s: seq<Tile>): seq<Tile> {
    if s == [] then [t]
    else if t.y <= s[0].y then [t] + s
    else [s[0]] + InsertByY(t, s[1..])
  }

  /** Stable sort by ascending y: the effect of `tiles.sort((a, b) => a.y - b.y)`. */
  function SortByY(s: seq<Tile>): seq<Tile> {
    if s == [] then [] else InsertByY(s[0], SortByY(s[1..]))
  }

  lemma {:induction false} InsertKeepsLowerBound(t: Tile, s: seq<Tile>, v: real)
    requires t.y >= v
    requires forall k :: 0 <= k < |s| ==> s[k].y >= v
    ensures forall k :: 0 <= k < |InsertByY(t, s)| ==> InsertByY(t, s)[k].y >= v
  {
    if s != [] && t.y > s[0].y {
      InsertKeepsLowerBound(t, s[1..], v);
    }
  }

  /** Insertion adds exactly one copy of `t`. */
  lemma {:induction false} InsertByYAdds(t: Tile, s: seq<Tile>)
    ensures multiset(InsertByY(t, s)) == multiset(s) + multiset{t}
  {
    if s != [] && t.y > s[0].y {
      InsertByYAdds(t, s[1..]);
      assert s == [s[0]] + s[1..];
    }
  }

  lemma PrependSorted(t: Tile, s: seq<Tile>)
    requires SortedByY(s)
    requires forall k :: 0 <= k < |s| ==> t.y <= s[k].y
    ensures SortedByY([t] + s)
  {
  }

  /** Inserting into a sorted list keeps it sorted and adds exactly `t`. */
  lemma {:induction false} InsertByYSorted(t: Tile, s: seq<Tile>)
    requires SortedByY(s)
    ensures SortedByY(InsertByY(t, s))
    ensures multiset(InsertByY(t, s)) == multiset(s) + multiset{t}
  {
    InsertByYAdds(t, s);
    if s == [] {
    } else if t.y <= s[0].y {
      PrependSorted(t, s);
    } else {
      var rest := InsertByY(t, s[1..]);
      InsertByYSorted(t, s[1..]);
      InsertKeepsLowerBound(t, s[1..], s[0].y);
      PrependSorted(s[0], rest);
    }
  }

  /** The sort yields an ascending list holding exactly the input's tiles. */
  lemma {:induction false} SortByYSortsAndPermutes(s: seq<Tile>)
    ensures SortedByY(SortByY(s))
    ensures multiset(SortByY(s)) == multiset(s)
  {
    if s != [] {
      SortByYSortsAndPermutes(s[1..]);
      InsertByYSorted(s[0], SortByY(s[1..]));
      assert s == [s[0]] + s[1..];
    }
  }

  /** A list that is already ascending comes back unchanged. */
  lemma {:induction false} SortByYKeepsSorted(s: seq<Tile>)
    requires SortedByY(s)
    ensures SortByY(s) == s
  {
    if s != [] {
      SortByYKeepsSorted(s[1..]);
      assert SortByY(s) == InsertByY(s[0], s[1..]);
      assert s == [s[0]] + s[1..];
    }
  }

  lemma {:induction false} InsertAfterSmaller(t: Tile, s: seq<Tile>)
    requires forall k :: 0 <= k < |s| ==> s[k].y < t.y
    ensures InsertByY(t, s) == s + [t]
  {
    if s != [] {
      InsertAfterSmaller(t, s[1..]);
      assert s == [s[0]] + s[1..];
    }
  }

  /** A strictly descending list comes back reversed. */
  lemma {:induction false} SortByYReversesDescending(s: seq<Tile>)
    requires StrictlyDescendingByY(s)
    ensures SortByY(s) == Reversed(s)
  {
    if s != [] {
      var tail := s[1..];
      SortByYReversesDescending(tail);
      var rev := Reversed(tail);
      assert forall k :: 0 <= k < |rev| ==> rev[k] == s[|s| - 1 - k];
      InsertAfterSmaller(s[0], rev);
      assert rev + [s[0]] == Reversed(s);
    }
  }

  // ---------------------------------------------------------------------
  // Properties of the generated chain
  // ---------------------------------------------------------------------

  /** Consecutive tiles are one chain step apart: +chainHeight in y, -chainHeight*ratio in x. */
  lemma LayoutChained(c: Config, i: nat)
    requires i + 1 < |c.sequence|
    ensures Layout(c)[i + 1].y - Layout(c)[i].y == c.chainHeight
    ensures Layout(c)[i + 1].x - Layout(c)[i].x == -c.chainHeight * c.offsetXRatio
  {
  }

  lemma LayoutAscending(c: Config)
    requires c.chainHeight >= 0.0
    ensures SortedByY(Layout(c))
  {
  }

  lemma LayoutDescending(c: Config)
    requires c.chainHeight < 0.0
    ensures StrictlyDescendingByY(Layout(c))
  {
  }

  /** An ascending chain is left as it is by the sort. */
  lemma LayoutSortIsIdentity(c: Config)
    requires c.chainHeight >= 0.0
    ensures SortByY(Layout(c)) == Layout(c)
  {
    LayoutAscending(c);
    SortByYKeepsSorted(Layout(c));
  }

  /** Chain tile i in closed form. */
  lemma LayoutTiles(c: Config)
    ensures forall i :: 0 <= i < |c.sequence| ==>
      Layout(c)[i] == Tile(AssetFor(c.assets, c.sequence[i]), c.sequence[i],
                           c.initialX - (i as real) * (c.chainHeight * c.offsetXRatio),
                           FirstTileY + (i as real) * c.chainHeight,
                           c.width, c.height, None, None)
  {
  }

  /**
   * With a non-negative chain height the sort in `generate` changes nothing:
   * tile i is sequence entry i at (initialX - i*chainHeight*ratio, -550 + i*chainHeight).
   */
  lemma GeneratedTiles(c: Config)
    requires c.chainHeight >= 0.0
    ensures SortByY(Layout(c)) == Layout(c)
    ensures |Layout(c)| == |c.sequence|
    ensures forall i :: 0 <= i < |c.sequence| ==>
      Layout(c)[i] == Tile(AssetFor(c.assets, c.sequence[i]), c.sequence[i],
                           c.initialX - (i as real) * (c.chainHeight * c.offsetXRatio),
                           FirstTileY + (i as real) * c.chainHeight,
                           c.width, c.height, None, None)
  {
    LayoutSortIsIdentity(c);
    LayoutTiles(c);
  }

  /** With a negative chain height (reachable through the ArrowDown key) the sort reverses the chain. */
  lemma GeneratedReversed(c: Config)
    requires c.chainHeight < 0.0
    ensures SortByY(Layout(c)) == Reversed(Layout(c))
    ensures forall i :: 0 <= i < |c.sequence| ==> SortByY(Layout(c))[i] == ChainTile(c, |c.sequence| - 1 - i)
  {
    LayoutDescending(c);
    SortByYReversesDescending(Layout(c));
  }

  // ---------------------------------------------------------------------
  // Movement along the diagonal
  // ---------------------------------------------------------------------

  /** One tile scrolled by `speed`: up the screen by speed, sideways by speed*ratio. */
  function MoveTile(t: Tile, speed: real, ratio: real): Tile {
    t.(y := t.y - speed, x := t.x + speed * ratio)
  }

  function Moved(ts: seq<Tile>, speed: real, ratio: real): seq<Tile> {
    seq(|ts|, i requires 0 <= i < |ts| => MoveTile(ts[i], speed, ratio))
  }

  /** Movement changes only x and y, by the same amounts for every tile. */
  lemma MovedKeepsShape(ts: seq<Tile>, speed: real, ratio: real)
    ensures |Moved(ts, speed, ratio)| == |ts|
    ensures forall i :: 0 <= i < |ts| ==>
      var m := Moved(ts, speed, ratio)[i];
      m.name == ts[i].name && m.asset == ts[i].asset && m.w == ts[i].w && m.h == ts[i].h &&
      m.renderX == ts[i].renderX && m.renderY == ts[i].renderY &&
      m.y == ts[i].y - speed && m.x == ts[i].x + speed * ratio
    ensures forall i, j :: 0 <= i < |ts| && 0 <= j < |ts| ==>
      Moved(ts, speed, ratio)[j].y - Moved(ts, speed, ratio)[i].y == ts[j].y - ts[i].y &&
      Moved(ts, speed, ratio)[j].x - Moved(ts, speed, ratio)[i].x == ts[j].x - ts[i].x
  {
  }

  /** A uniform translation keeps the list ascending by y. */
  lemma MovedKeepsSorted(ts: seq<Tile>, speed: real, ratio: real)
    requires SortedByY(ts)
    ensures SortedByY(Moved(ts, speed, ratio))
  {
  }

  /** Moving by a and then by b is moving by a + b. */
  lemma MovedTwice(ts: seq<Tile>, a: real, b: real, ratio: real)
    ensures Moved(Moved(ts, a, ratio), b, ratio) == Moved(ts, a + b, ratio)
  {
  }

  /** Moving by zero changes nothing. */
  lemma MovedByZero(ts: seq<Tile>, ratio: real)
    ensures Moved(ts, 0.0, ratio) == ts
  {
  }

  // ---------------------------------------------------------------------
  // Looking a tile up by name
  // ---------------------------------------------------------------------

  /** Index of the first tile called `name`, if any. */
  function FirstIndexNamed(ts: seq<Tile>, name: string): (r: Option<nat>)
    ensures r.Some? ==> r.value < |ts| && ts[r.value].name == name &&
                        forall j :: 0 <= j < r.value ==> ts[j].name != name
    ensures r.None? ==> forall j :: 0 <= j < |ts| ==> ts[j].name != name
  {
    if ts == [] then None
    else if ts[0].name == name then Some(0)
    else match FirstIndexNamed(ts[1..], name)
      case None => None
      case Some(k) => Some(k + 1)
  }

  /** The first tile called `name` (`tiles.find(t => t.name === name)`), or none. */
  function FindTile(ts: seq<Tile>, name: string): (r: Option<Tile>)
    ensures r.None? <==> forall j :: 0 <= j < |ts| ==> ts[j].name != name
    ensures r.Some? ==> exists i :: 0 <= i < |ts| && ts[i] == r.value && ts[i].name == name &&
                                    forall j :: 0 <= j < i ==> ts[j].name != name
  {
    match FirstIndexNamed(ts, name)
    case None => None
    case Some(i) => Some(ts[i])
  }

  lemma {:induction false} FirstIndexAfterMove(ts: seq<Tile>, name: string, speed: real, ratio: real)
    ensures FirstIndexNamed(Moved(ts, speed, ratio), name) == FirstIndexNamed(ts, name)
  {
    if ts != [] {
      assert Moved(ts, speed, ratio)[1..] == Moved(ts[1..], speed, ratio);
      FirstIndexAfterMove(ts[1..], name, speed, ratio);
    }
  }

  /** Looking a tile up commutes with movement: the finish tile moves with the track. */
  lemma FindTileAfterMove(ts: seq<Tile>, name: string, speed: real, ratio: real)
    ensures FindTile(Moved(ts, speed, ratio), name) ==
      match FindTile(ts, name)
      case None => None
      case Some(t) => Some(MoveTile(t, speed, ratio))
  {
    FirstIndexAfterMove(ts, name, speed, ratio);
  }

  /** With the default configuration the finish tile is chain tile 10, at y = -550 + 10*800. */
  lemma DefaultFinishTile(assets: map<string, Image>)
    ensures FindTile(SortByY(Layout(DefaultConfig(assets))), FinishName) == Some(ChainTile(DefaultConfig(assets), 10))
    ensures ChainTile(DefaultConfig(assets), 10).y == 7450.0
  {
    var c := DefaultConfig(assets);
    GeneratedTiles(c);
    var l := Layout(c);
    assert l[10].name == FinishName;
    assert forall j :: 0 <= j < 10 ==> DefaultSequence[j] != FinishName;
  }

  // ---------------------------------------------------------------------
  // Track
  // ---------------------------------------------------------------------

  /** One more step of a chain accumulator: `(i + 1)·d == i·d + d`. */
  lemma NextStep(i: nat, d: real)
    ensures ((i + 1) as real) * d == (i as real) * d + d
  {
  }

  /**
   * The scrolling track. The ghost `layout` is the list the last `generate`
   * produced and `scrolled` the total movement applied since then.
   */
  class Track {
    var assets: map<string, Image>
    var tiles: seq<Tile>
    var zoomFactor: real
    var width: real
    var height: real
    var offsetXRatio: real
    var chainHeight: real
    var initialX: real
    var sequence: seq<string>
    ghost var layout: seq<Tile>
    ghost var scrolled: real

    /** The tile list is the last generated list moved by `scrolled`; both are ascending by y. */
    ghost predicate Valid()
      reads this
    {
      SortedByY(layout) && tiles == Moved(layout, scrolled, offsetXRatio)
    }

    /** The last generated list is the one the current configuration produces. */
    ghost predicate Generated()
      reads this
    {
      layout == SortByY(Layout(Settings()))
    }

    function Settings(): Config
      reads this
    {
      Config(assets, zoomFactor, width, height, offsetXRatio, chainHeight, initialX, sequence)
    }

    lemma ValidTilesSorted()
      requires Valid()
      ensures SortedByY(tiles)
    {
    }

    constructor (assets: map<string, Image>)
      ensures Valid()
      ensures Settings() == DefaultConfig(assets)
      ensures tiles == [] && scrolled == 0.0
    {
      var zoom := DefaultZoom;
      var w := ZoomedWidth(zoom);
      this.assets := assets;
      tiles := [];
      zoomFactor := zoom;
      width := w;
      height := ZoomedHeight(zoom);
      offsetXRatio := DefaultOffsetXRatio;
      chainHeight := DefaultChainHeight;
      initialX := CenteredX(w);
      sequence := DefaultSequence;
      layout := [];
      scrolled := 0.0;
    }

    /** Rebuilds the whole tile list from the configuration and sorts it by y. */
    method Generate() returns (r: seq<Tile>)
      modifies this`tiles, this`layout, this`scrolled
      ensures tiles == SortByY(Layout(Settings())) && r == tiles
      ensures Valid() && Generated() && scrolled == 0.0
    {
      ghost var c := Settings();
      ghost var chain := Layout(c);
      var built := [];
      var currentX := initialX;
      var currentY := FirstTileY;
      var i := 0;
      while i < |sequence|
        invariant 0 <= i <= |sequence| == |c.sequence|
        invariant built == chain[..i]
        invariant currentY == FirstTileY + (i as real) * c.chainHeight
        invariant currentX == c.initialX - (i as real) * (c.chainHeight * c.offsetXRatio)
      {
        var assetName := sequence[i];
        var tile := Tile(AssetFor(assets, assetName), assetName, currentX, currentY, width, height, None, None);
        assert chain[i] == ChainTile(c, i) == tile;
        assert chain[..i + 1] == chain[..i] + [tile];
        built := built + [tile];
        NextStep(i, c.chainHeight);
        NextStep(i, c.chainHeight * c.offsetXRatio);
        currentY := currentY + chainHeight;
        currentX := currentX - chainHeight * offsetXRatio;
        i := i + 1;
      }
      assert built == chain;
      SortByYSortsAndPermutes(chain);
      var sorted := SortByY(built);
      MovedByZero(sorted, offsetXRatio);
      tiles, layout, scrolled := sorted, sorted, 0.0;
      r := sorted;
    }

    /** Scrolls every tile along the diagonal by `speed`. */
    method UpdateMovement(speed: real)
      requires Valid()
      modifies this`tiles, this`scrolled
      ensures Valid()
      ensures tiles == Moved(old(tiles), speed, offsetXRatio)
      ensures scrolled == old(scrolled) + speed
    {
      ghost var before := tiles;
      var i := 0;
      while i < |tiles|
        invariant 0 <= i <= |tiles| == |before|
        invariant forall k :: 0 <= k < i ==> tiles[k] == MoveTile(before[k], speed, offsetXRatio)
        invariant forall k :: i <= k < |tiles| ==> tiles[k] == before[k]
        invariant scrolled == old(scrolled)
      {
        var tile := tiles[i];
        tiles := tiles[i := tile.(y := tile.y - speed, x := tile.x + speed * offsetXRatio)];
        i := i + 1;
      }
      assert tiles == Moved(before, speed, offsetXRatio);
      MovedTwice(layout, scrolled, speed, offsetXRatio);
      scrolled := scrolled + speed;
    }

    /** Generates the track, scrolls it by `preScrollOffset` and sorts it again. */
    method GenerateWithPreScroll(preScrollOffset: real)
      modifies this`tiles, this`layout, this`scrolled
      ensures tiles == Moved(SortByY(Layout(Settings())), preScrollOffset, offsetXRatio)
      ensures Valid() && Generated() && scrolled == preScrollOffset
    {
      var _ := Generate();
      UpdateMovement(preScrollOffset);
      MovedKeepsSorted(layout, preScrollOffset, offsetXRatio);
      SortByYKeepsSorted(tiles);
      tiles := SortByY(tiles);
    }

    /** Exactly `generate`. */
    method Reset()
      modifies this`tiles, this`layout, this`scrolled
      ensures tiles == SortByY(Layout(Settings()))
      ensures Valid() && Generated() && scrolled == 0.0
    {
      var _ := Generate();
    }

    /** The first tile called 'finish', or none. */
    function GetFinishTile(): (r: Option<Tile>)
      reads this
      ensures r.None? <==> forall j :: 0 <= j < |tiles| ==> tiles[j].name != FinishName
      ensures r.Some? ==> exists i :: 0 <= i < |tiles| && tiles[i] == r.value && r.value.name == FinishName &&
                                      forall j :: 0 <= j < i ==> tiles[j].name != FinishName
    {
      FindTile(tiles, FinishName)
    }
  }

  /** `generateWithPreScroll(0)` produces the same list as `generate()`. */
  lemma PreScrollByZeroIsGenerate(c: Config)
    ensures Moved(SortByY(Layout(c)), 0.0, c.offsetXRatio) == SortByY(Layout(c))
  {
  }

  // ---------------------------------------------------------------------
  // Racer
  // ---------------------------------------------------------------------

  /** Start position by racer name; an unknown name starts at the origin. */
  function StartPosition(name: string): (real, real) {
    if name == "Jesse" then (-90.0, -30.0)
    else if name == "Barmstrong" then (190.0, 150.0)
    else if name == "Deployer" then (460.0, 300.0)
    else if name == "Dish" then (790.0, 530.0)
    else (0.0, 0.0)
  }

  /** Base speed from a uniform draw in [0, 1): `0.3 + Math.random() * 0.7`. */
  function BaseSpeed(roll: real): (r: real)
    requires 0.0 <= roll < 1.0
    ensures 0.3 <= r < 1.0
  {
    0.3 + roll * 0.7
  }

  /** One smoothing step from `current` toward `target`: the gap shrinks to 95%, never overshooting. */
  function Approach(current: real, target: real): (r: real)
    ensures r - target == (current - target) * (1.0 - SpeedSmoothing)
    ensures current <= target ==> current <= r <= target
    ensures target <= current ==> target <= r <= current
  {
    current + (target - current) * SpeedSmoothing
  }

  function Abs(r: real): real {
    if r < 0.0 then -r else r
  }

  /**
   * A racer that moves along the diagonal by accumulated progress. The
   * random draws and the clock the source reads are parameters here.
   */
  class Racer {
    const id: int
    const name: string
    const asset: Option<Image>
    const laneIndex: int
    const track: Track?
    const w: real
    const h: real
    const diagonalRatio: real
    var startX: real
    var startY: real
    var x: real
    var yPosOnScreen: real
    var progress: real
    var baseSpeed: real
    var targetSpeed: real
    var currentSpeed: real
    var finished: bool
    var finishTime: real

    /**
     * Position is a function of progress along the fixed diagonal, and the
     * racer is finished exactly when it is at least FinishDistance from its start.
     */
    ghost predicate Valid()
      reads this
    {
      diagonalRatio == DiagonalRatio &&
      yPosOnScreen == startY + progress &&
      x == startX + progress * diagonalRatio &&
      (finished <==> Abs(yPosOnScreen - startY) >= FinishDistance) &&
      (!finished ==> finishTime == 0.0)
    }

    /** `speedRoll` is the constructor's first `Math.random()` draw. */
    constructor (id: int, name: string, asset: Option<Image>, laneIndex: int, track: Track?, speedRoll: real)
      requires 0.0 <= speedRoll < 1.0
      ensures Valid()
      ensures this.id == id && this.name == name && this.asset == asset
      ensures this.laneIndex == laneIndex && this.track == track && w == 600.0 && h == 600.0
      ensures (startX, startY) == StartPosition(name) && x == startX && yPosOnScreen == startY
      ensures progress == 0.0 && !finished && finishTime == 0.0
      ensures baseSpeed == BaseSpeed(speedRoll) && targetSpeed == baseSpeed && currentSpeed == baseSpeed
    {
      this.id := id;
      this.name := name;
      this.asset := asset;
      this.laneIndex := laneIndex;
      this.track := track;
      w, h := 600.0, 600.0;
      var pos := StartPosition(name);
      startX, startY := pos.0, pos.1;
      x, yPosOnScreen := pos.0, pos.1;
      diagonalRatio := DiagonalRatio;
      progress := 0.0;
      var speed := BaseSpeed(speedRoll);
      baseSpeed, targetSpeed, currentSpeed := speed, speed, speed;
      finished, finishTime := false, 0.0;
    }

    /**
     * One frame: `bonus` is the oscillation term `sin(...) * 10` and `now`
     * the clock reading. A finished racer does not move.
     */
    method Update(dt: real, bonus: real, now: real)
      requires Valid()
      modifies this
      ensures Valid()
      ensures old(finished) ==> unchanged(this)
      ensures !old(finished) ==>
        targetSpeed == baseSpeed + bonus &&
        currentSpeed == Approach(old(currentSpeed), targetSpeed) &&
        progress == old(progress) + currentSpeed * dt / 100.0 &&
        finished == (Abs(progress) >= FinishDistance) &&
        finishTime == (if finished then now else 0.0)
      ensures old(finished) ==> finished
      ensures startX == old(startX) && startY == old(startY) && baseSpeed == old(baseSpeed)
      ensures x - startX == (yPosOnScreen - startY) * diagonalRatio
    {
      if finished {
        return;
      }
      targetSpeed := baseSpeed + bonus;
      currentSpeed := currentSpeed + (targetSpeed - currentSpeed) * SpeedSmoothing;
      progress := progress + currentSpeed * dt / 100.0;
      yPosOnScreen := startY + progress;
      x := startX + progress * diagonalRatio;
      var distanceTraveled := Abs(yPosOnScreen - startY);
      if distanceTraveled >= FinishDistance && !finished {
        finished := true;
        finishTime := now;
      }
    }

    /** Back to the start table position with a fresh base speed drawn from `speedRoll`. */
    method Reset(speedRoll: real)
      requires 0.0 <= speedRoll < 1.0
      requires Valid()
      modifies this
      ensures Valid()
      ensures (startX, startY) == StartPosition(name) && x == startX && yPosOnScreen == startY
      ensures progress == 0.0 && !finished && finishTime == 0.0
      ensures baseSpeed == BaseSpeed(speedRoll) && targetSpeed == baseSpeed && currentSpeed == baseSpeed
    {
      var pos := StartPosition(name);
      startX, startY := pos.0, pos.1;
      x, yPosOnScreen := pos.0, pos.1;
      progress := 0.0;
      var speed := BaseSpeed(speedRoll);
      baseSpeed, targetSpeed, currentSpeed := speed, speed, speed;
      finished, finishTime := false, 0.0;
    }
  }
}
