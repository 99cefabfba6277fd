/**
 * The renderer's decisions, with the canvas replaced by the list of drawing
 * commands it would receive: which tiles are culled, the snapped rectangle a
 * tile is drawn into, the back-to-front order, and how racers are marked.
 */
module Renderer {
  import opened Optional
  import opened Entities

  /** Size of the canvas being drawn on. */
  datatype Canvas = Canvas(width: real, height: real)

  /**
   * A coordinate handed to the canvas. `NaN` is what `Math.floor` makes of
   * an undefined property; a canvas call with a NaN coordinate draws nothing.
   */
  datatype Coord = Px(v: int) | NaN

  function Offset(c: Coord, d: int): Coord {
    match c
    case Px(v) => Px(v + d)
    case NaN => NaN
  }

  /** The canvas calls the renderer makes, in order. */
  datatype Command =
    | FillRect(color: string, left: real, top: real, width: real, height: real)
    | DrawImage(image: Image, x: Coord, y: Coord, w: real, h: real)
    | StrokeRect(color: string, lineWidth: real, x: Coord, y: Coord, w: real, h: real)
    | FillText(color: string, index: nat, x: Coord, y: Coord)

  const Background: string := "#0f0f23"
  const White: string := "#ffffff"
  /** Red, green, blue, yellow: the marks of racers 0 to 3. */
  const Palette: seq<string> := ["#ff0000", "#00ff00", "#0000ff", "#ffff00"]
  /** Culling margin above and below the canvas. */
  const VerticalMargin: real := 500.0
  /** Culling margin left and right of the canvas, wider because of the diagonal drift. */
  const HorizontalMargin: real := 1000.0
  /** Extra pixels added to a tile's width and height so neighbours overlap. */
  const Stitch: int := 2

  // ---------------------------------------------------------------------
  // Tiles
  // ---------------------------------------------------------------------

  /** `tile.w || fallback`: a width of 0 is falsy and falls back. */
  function TileWidth(t: Tile, fallback: real): real {
    if t.w != 0.0 then t.w else fallback
  }

  function TileHeight(t: Tile, fallback: real): real {
    if t.h != 0.0 then t.h else fallback
  }

  /** The smoothed render position when the tile has one, else its position. */
  function TileX(t: Tile): real {
    t.renderX.GetOr(t.x)
  }

  function TileY(t: Tile): real {
    t.renderY.GetOr(t.y)
  }

  /** The tile lies entirely outside the canvas widened by the culling margins. */
  predicate Culled(canvas: Canvas, x: real, y: real, w: real, h: real) {
    y > canvas.height + VerticalMargin || y + h < -VerticalMargin ||
    x > canvas.width + HorizontalMargin || x + w < -HorizontalMargin
  }

  function Ceil(r: real): (n: int)
    ensures r <= n as real < r + 1.0
  {
    -((-r).Floor)
  }

  /**
   * The drawn rectangle starts on the whole pixel at or just before the tile
   * and reaches more than one pixel past its far edges, so that the next
   * tile of the chain overlaps it and no seam shows.
   */
  predicate Covers(cmd: Command, x: real, y: real, w: real, h: real) {
    cmd.DrawImage? && cmd.x.Px? && cmd.y.Px? &&
    x - 1.0 < cmd.x.v as real <= x && y - 1.0 < cmd.y.v as real <= y &&
    cmd.x.v as real + cmd.w > x + w + 1.0 && cmd.y.v as real + cmd.h > y + h + 1.0
  }

  /** `drawTile(tile, fallbackWidth, fallbackHeight)`: at most one image, or nothing. */
  function DrawTile(canvas: Canvas, t: Tile, fallbackWidth: real, fallbackHeight: real): (cmds: seq<Command>)
    ensures |cmds| <= 1
    ensures cmds == [] <==>
      t.asset.None? ||
      Culled(canvas, TileX(t), TileY(t), TileWidth(t, fallbackWidth), TileHeight(t, fallbackHeight))
    ensures cmds != [] ==>
      cmds[0].DrawImage? && cmds[0].image == t.asset.value &&
      Covers(cmds[0], TileX(t), TileY(t), TileWidth(t, fallbackWidth), TileHeight(t, fallbackHeight)) &&
      cmds[0].w == (Ceil(TileWidth(t, fallbackWidth)) + Stitch) as real &&
      cmds[0].h == (Ceil(TileHeight(t, fallbackHeight)) + Stitch) as real
  {
    if t.asset.None? then []
    else
      var w := TileWidth(t, fallbackWidth);
      var h := TileHeight(t, fallbackHeight);
      var x := TileX(t);
      var y := TileY(t);
      if y > canvas.height + VerticalMargin || y + h < -VerticalMargin then []
      else if x > canvas.width + HorizontalMargin || x + w < -HorizontalMargin then []
      else [DrawImage(t.asset.value, Px(x.Floor), Px(y.Floor), (Ceil(w) + Stitch) as real, (Ceil(h) + Stitch) as real)]
  }

  /** A tile with an image that overlaps the canvas itself is never culled. */
  lemma VisibleTileIsDrawn(canvas: Canvas, t: Tile, fallbackWidth: real, fallbackHeight: real)
    requires t.asset.Some?
    requires TileWidth(t, fallbackWidth) >= 0.0 && TileHeight(t, fallbackHeight) >= 0.0
    requires TileX(t) <= canvas.width && TileX(t) + TileWidth(t, fallbackWidth) >= 0.0
    requires TileY(t) <= canvas.height && TileY(t) + TileHeight(t, fallbackHeight) >= 0.0
    ensures |DrawTile(canvas, t, fallbackWidth, fallbackHeight)| == 1
  {
  }

  /** The tile images of one frame, in list order. */
  function TileCommands(canvas: Canvas, ts: seq<Tile>, fallbackWidth: real, fallbackHeight: real): (cmds: seq<Command>)
    ensures |cmds| <= |ts|
    ensures forall k :: 0 <= k < |cmds| ==> cmds[k].DrawImage?
  {
    if ts == [] then []
    else TileCommands(canvas, ts[..|ts| - 1], fallbackWidth, fallbackHeight) +
         DrawTile(canvas, ts[|ts| - 1], fallbackWidth, fallbackHeight)
  }

  /** No re-sorting: when no tile is culled, image k is tile k of the list. */
  lemma {:induction false} TilesDrawnInListOrder(canvas: Canvas, ts: seq<Tile>, fallbackWidth: real, fallbackHeight: real)
    requires forall i :: 0 <= i < |ts| ==> DrawTile(canvas, ts[i], fallbackWidth, fallbackHeight) != []
    ensures |TileCommands(canvas, ts, fallbackWidth, fallbackHeight)| == |ts|
    ensures forall i :: 0 <= i < |ts| ==>
      TileCommands(canvas, ts, fallbackWidth, fallbackHeight)[i] == DrawTile(canvas, ts[i], fallbackWidth, fallbackHeight)[0]
  {
    if ts != [] {
      var init := ts[..|ts| - 1];
      TilesDrawnInListOrder(canvas, init, fallbackWidth, fallbackHeight);
    }
  }

  /** The tiles `drawTile` does not skip, in list order. */
  function DrawnTiles(canvas: Canvas, ts: seq<Tile>, fallbackWidth: real, fallbackHeight: real): (r: seq<Tile>)
    ensures |r| <= |ts|
    ensures forall k :: 0 <= k < |r| ==> r[k] in ts && DrawTile(canvas, r[k], fallbackWidth, fallbackHeight) != []
  {
    if ts == [] then []
    else
      var init := ts[..|ts| - 1];
      var last := ts[|ts| - 1];
      DrawnTiles(canvas, init, fallbackWidth, fallbackHeight) +
      (if DrawTile(canvas, last, fallbackWidth, fallbackHeight) != [] then [last] else [])
  }

  /** No re-sorting, culling or not: image k is the k-th tile that is not skipped. */
  lemma {:induction false} TileImagesFollowListOrder(canvas: Canvas, ts: seq<Tile>, fallbackWidth: real, fallbackHeight: real)
    ensures |TileCommands(canvas, ts, fallbackWidth, fallbackHeight)| == |DrawnTiles(canvas, ts, fallbackWidth, fallbackHeight)|
    ensures forall k :: 0 <= k < |DrawnTiles(canvas, ts, fallbackWidth, fallbackHeight)| ==>
      TileCommands(canvas, ts, fallbackWidth, fallbackHeight)[k] ==
      DrawTile(canvas, DrawnTiles(canvas, ts, fallbackWidth, fallbackHeight)[k], fallbackWidth, fallbackHeight)[0]
  {
    if ts != [] {
      TileImagesFollowListOrder(canvas, ts[..|ts| - 1], fallbackWidth, fallbackHeight);
    }
  }

  // ---------------------------------------------------------------------
  // Racers
  // ---------------------------------------------------------------------

  /** What the renderer reads of a racer. */
  datatype RacerSprite = RacerSprite(asset: Option<Image>, finished: bool, x: real, yPosOnScreen: real, w: real, h: real)

  function SpriteOf(r: Racer): RacerSprite
    reads r
  {
    RacerSprite(r.asset, r.finished, r.x, r.yPosOnScreen, r.w, r.h)
  }

  /**
   * A valid racer that is drawn has its image and border on the racer's own
   * diagonal, less than FinishDistance below or above its start.
   */
  lemma DrawnRacerOnDiagonal(i: nat, r: Racer)
    requires r.Valid() && r.asset.Some? && !r.finished
    ensures |DrawRacer(i, SpriteOf(r))| == 3
    ensures DrawRacer(i, SpriteOf(r))[0] ==
      DrawImage(r.asset.value, Px((r.startX + (r.yPosOnScreen - r.startY) * DiagonalRatio).Floor),
                Px(r.yPosOnScreen.Floor), r.w, r.h)
    ensures r.startY - FinishDistance - 1.0 < r.yPosOnScreen.Floor as real < r.startY + FinishDistance
  {
  }

  /** `colors[i] || '#ffffff'`. */
  function RacerColor(i: nat): string {
    if i < |Palette| then Palette[i] else White
  }

  /** The first four racers get four different colours, none of them white. */
  lemma RacerColorsDistinct(i: nat, j: nat)
    requires i < j < |Palette|
    ensures RacerColor(i) != RacerColor(j)
    ensures RacerColor(i) != White && RacerColor(j) != White
  {
  }

  /** Image, coloured border and index label of racer i at (floor x, drawY). */
  function RacerMarks(i: nat, s: RacerSprite, drawY: Coord): seq<Command> {
    if s.asset.None? || s.finished then []
    else
      var drawX := Px(s.x.Floor);
      [DrawImage(s.asset.value, drawX, drawY, s.w, s.h),
       StrokeRect(RacerColor(i), 8.0, drawX, drawY, s.w, s.h),
       FillText(RacerColor(i), i, Offset(drawX, 10), Offset(drawY, 40))]
  }

  /** As written, the racer's y is read from a property Racer does not have, so it is NaN. */
  function DrawRacerAsWritten(i: nat, s: RacerSprite): seq<Command> {
    RacerMarks(i, s, NaN)
  }

  /** As written, a racer that should be drawn yields three calls, none of which lands on the canvas. */
  lemma RacerInvisibleAsWritten(i: nat, s: RacerSprite)
    requires s.asset.Some? && !s.finished
    ensures |DrawRacerAsWritten(i, s)| == 3
    ensures forall k :: 0 <= k < 3 ==> DrawRacerAsWritten(i, s)[k].y == NaN
  {
  }

  /** Racer i, drawn at its on-screen position; finished racers and racers without an image are skipped. */
  function DrawRacer(i: nat, s: RacerSprite): (cmds: seq<Command>)
    ensures cmds == [] <==> s.asset.None? || s.finished
    ensures cmds != [] ==>
      |cmds| == 3 && cmds[0].DrawImage? && cmds[0].image == s.asset.value &&
      cmds[1].StrokeRect? && cmds[2].FillText? && cmds[2].index == i &&
      cmds[1].color == cmds[2].color == RacerColor(i) &&
      cmds[0].x == cmds[1].x == Px(s.x.Floor) && cmds[0].y == cmds[1].y == Px(s.yPosOnScreen.Floor) &&
      cmds[2].x == Px(s.x.Floor + 10) && cmds[2].y == Px(s.yPosOnScreen.Floor + 40)
  {
    RacerMarks(i, s, Px(s.yPosOnScreen.Floor))
  }

  function RacerCommands(rs: seq<RacerSprite>): seq<Command> {
    if rs == [] then []
    else RacerCommands(rs[..|rs| - 1]) + DrawRacer(|rs| - 1, rs[|rs| - 1])
  }

  function DrawableCount(rs: seq<RacerSprite>): nat {
    if rs == [] then 0
    else DrawableCount(rs[..|rs| - 1]) + (if rs[|rs| - 1].asset.Some? && !rs[|rs| - 1].finished then 1 else 0)
  }

  /** Each unfinished racer with an image gets exactly three calls; every other racer none. */
  lemma {:induction false} RacerCommandsCount(rs: seq<RacerSprite>)
    ensures |RacerCommands(rs)| == 3 * DrawableCount(rs)
  {
    if rs != [] {
      RacerCommandsCount(rs[..|rs| - 1]);
    }
  }

  // ---------------------------------------------------------------------
  // A whole frame
  // ---------------------------------------------------------------------

  /** What the renderer reads of the track; `tiles` is `None` when the property is missing. */
  datatype TrackFrame = TrackFrame(tiles: Option<seq<Tile>>, width: real, height: real)

  function Clear(canvas: Canvas): Command {
    FillRect(Background, 0.0, 0.0, canvas.width, canvas.height)
  }

  /** `render(track, racers)`: clear, tiles in list order, then racers on top. */
  function Frame(canvas: Canvas, track: Option<TrackFrame>, racers: seq<RacerSprite>): (cmds: seq<Command>)
    ensures cmds == [] <==> track.None? || track.value.tiles.None?
    ensures cmds != [] ==> cmds[0] == Clear(canvas)
  {
    match track
    case None => []
    case Some(f) =>
      match f.tiles
      case None => []
      case Some(ts) => [Clear(canvas)] + TileCommands(canvas, ts, f.width, f.height) + RacerCommands(racers)
  }

  /** With nothing culled, call 1 + i of the frame draws tile i: the list order is the drawing order. */
  lemma FrameDrawsTilesInListOrder(canvas: Canvas, f: TrackFrame, racers: seq<RacerSprite>)
    requires f.tiles.Some?
    requires forall i :: 0 <= i < |f.tiles.value| ==> DrawTile(canvas, f.tiles.value[i], f.width, f.height) != []
    ensures |Frame(canvas, Some(f), racers)| == 1 + |f.tiles.value| + 3 * DrawableCount(racers)
    ensures forall i :: 0 <= i < |f.tiles.value| ==>
      Frame(canvas, Some(f), racers)[1 + i] == DrawTile(canvas, f.tiles.value[i], f.width, f.height)[0]
  {
    var ts := f.tiles.value;
    var tileCmds := TileCommands(canvas, ts, f.width, f.height);
    assert Frame(canvas, Some(f), racers) == [Clear(canvas)] + tileCmds + RacerCommands(racers);
    TilesDrawnInListOrder(canvas, ts, f.width, f.height);
    RacerCommandsCount(racers);
  }

  /** Whatever is culled, a frame draws the remaining tiles in list order: call 1 + k is the k-th drawn tile. */
  lemma FrameDrawsVisibleTilesInListOrder(canvas: Canvas, f: TrackFrame, racers: seq<RacerSprite>)
    requires f.tiles.Some?
    ensures |Frame(canvas, Some(f), racers)| ==
      1 + |DrawnTiles(canvas, f.tiles.value, f.width, f.height)| + 3 * DrawableCount(racers)
    ensures forall k :: 0 <= k < |DrawnTiles(canvas, f.tiles.value, f.width, f.height)| ==>
      Frame(canvas, Some(f), racers)[1 + k] ==
      DrawTile(canvas, DrawnTiles(canvas, f.tiles.value, f.width, f.height)[k], f.width, f.height)[0]
  {
    var ts := f.tiles.value;
    var tileCmds := TileCommands(canvas, ts, f.width, f.height);
    assert Frame(canvas, Some(f), racers) == [Clear(canvas)] + tileCmds + RacerCommands(racers);
    TileImagesFollowListOrder(canvas, ts, f.width, f.height);
    RacerCommandsCount(racers);
  }

  /** `drawRacers(racers)`. */
  method DrawRacers(racers: seq<RacerSprite>) returns (cmds: seq<Command>)
    ensures cmds == RacerCommands(racers)
  {
    cmds := [];
    for i := 0 to |racers|
      invariant cmds == RacerCommands(racers[..i])
    {
      assert racers[..i + 1][..i] == racers[..i];
      cmds := cmds + DrawRacer(i, racers[i]);
    }
    assert racers[..|racers|] == racers;
  }

  /** `render(track, racers)`. */
  method Render(canvas: Canvas, track: Option<TrackFrame>, racers: seq<RacerSprite>) returns (cmds: seq<Command>)
    ensures cmds == Frame(canvas, track, racers)
  {
    if track.None? || track.value.tiles.None? {
      return [];
    }
    var tiles := track.value.tiles.value;
    var fallbackWidth, fallbackHeight := track.value.width, track.value.height;
    var tileCmds := [];
    for i := 0 to |tiles|
      invariant tileCmds == TileCommands(canvas, tiles[..i], fallbackWidth, fallbackHeight)
    {
      assert tiles[..i + 1][..i] == tiles[..i];
      tileCmds := tileCmds + DrawTile(canvas, tiles[i], fallbackWidth, fallbackHeight);
    }
    assert tiles[..|tiles|] == tiles;
    var racerCmds := DrawRacers(racers);
    cmds := [Clear(canvas)] + tileCmds + racerCmds;
  }
}
