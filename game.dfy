/**
 * The game's state machine (loading, ready, racing, finished) driving the
 * Track: the frame loop with its delta gate, the race clock, the end-of-race
 * test on the last tile, restarts with a pre-scrolled track, and the debug
 * controls that change the track's geometry. The DOM, timer text and asset
 * loading are not modelled; the frame's drawing is returned as commands.
 */
module GameLoop {
  import opened Optional
  import opened Entities
  import Renderer

  datatype State = Loading | Ready | Racing | Finished

  /** Track scroll speed in pixels per second. */
  const ScrollSpeed: real := 400.0
  /** Seconds of scrolling applied to a freshly generated track before it is shown. */
  const PreScrollSeconds: real := 1.25
  /** Frame deltas (ms) of this size or more are dropped, as after a paused tab. */
  const MaxFrameDelta: real := 1000.0
  /** The race is over once the last tile of the list is above this y. */
  const FinishLineY: real := 600.0
  const GameCanvas: Renderer.Canvas := Renderer.Canvas(1200.0, 1800.0)

  /** Distance the track scrolls in `delta` milliseconds. */
  function Movement(scrollSpeed: real, delta: real): real {
    scrollSpeed * delta / 1000.0
  }

  /** The last tile of the list exists and has passed the finish line. */
  predicate RaceOver(tiles: seq<Tile>) {
    |tiles| > 0 && tiles[|tiles| - 1].y < FinishLineY
  }

  /** A zoom input is applied only when it parsed as a number greater than zero. */
  predicate AcceptsZoom(value: Option<real>) {
    value.Some? && value.value > 0.0
  }

  /** The pre-scroll applied at start-up and on every start is 500 pixels. */
  lemma PreScrollDistance()
    ensures ScrollSpeed * PreScrollSeconds == 500.0
  {
  }

  /** The last chain tile, moved by `s`, is at y = -550 + (n-1)*chainHeight - s. */
  lemma LastChainTileMoved(c: Config, s: real)
    requires |c.sequence| > 0
    ensures |Moved(Layout(c), s, c.offsetXRatio)| == |c.sequence|
    ensures Moved(Layout(c), s, c.offsetXRatio)[|c.sequence| - 1].y ==
            FirstTileY + ((|c.sequence| - 1) as real) * c.chainHeight - s
  {
    var n := |c.sequence|;
    assert Layout(c)[n - 1] == ChainTile(c, n - 1);
  }

  /**
   * For a non-negative chain height the race ends exactly when the track has
   * scrolled past the point where the last chain tile reaches the finish line.
   */
  lemma RaceOverWhenScrolledPast(c: Config, s: real)
    requires |c.sequence| > 0 && c.chainHeight >= 0.0
    ensures RaceOver(Moved(SortByY(Layout(c)), s, c.offsetXRatio)) <==>
            s > FirstTileY + ((|c.sequence| - 1) as real) * c.chainHeight - FinishLineY
  {
    LayoutSortIsIdentity(c);
    LastChainTileMoved(c, s);
  }

  /** With the default track the race ends once the total scroll exceeds 9250 pixels. */
  lemma DefaultRaceLength(assets: map<string, Image>, s: real)
    ensures RaceOver(Moved(SortByY(Layout(DefaultConfig(assets))), s, DefaultOffsetXRatio)) <==> s > 9250.0
  {
    RaceOverWhenScrolledPast(DefaultConfig(assets), s);
  }

  /** After a start on the default track the finish tile sits 500 pixels above chain tile 10, at y = 6950. */
  lemma DefaultFinishTileAfterStart(assets: map<string, Image>)
    ensures FindTile(Moved(SortByY(Layout(DefaultConfig(assets))), ScrollSpeed * PreScrollSeconds, DefaultOffsetXRatio), FinishName)
            == Some(MoveTile(ChainTile(DefaultConfig(assets), 10), 500.0, DefaultOffsetXRatio))
    ensures MoveTile(ChainTile(DefaultConfig(assets), 10), 500.0, DefaultOffsetXRatio).y == 6950.0
  {
    DefaultFinishTile(assets);
    FindTileAfterMove(SortByY(Layout(DefaultConfig(assets))), FinishName, ScrollSpeed * PreScrollSeconds, DefaultOffsetXRatio);
  }

  class Game {
    const scrollSpeed: real
    var state: State
    var raceTime: real
    var lastTime: real
    var track: Track?

    /** Once loading is over there is a track, and the track is the generated chain moved by its scroll. */
    ghost predicate Valid()
      reads this, track
    {
      scrollSpeed == ScrollSpeed &&
      (state != Loading ==> track != null) &&
      (track != null ==> track.Valid() && track.Generated())
    }

    constructor ()
      ensures Valid()
      ensures state == Loading && raceTime == 0.0 && lastTime == 0.0 && track == null
    {
      scrollSpeed := ScrollSpeed;
      state := Loading;
      raceTime := 0.0;
      lastTime := 0.0;
      track := null;
    }

    /** The part of `init` after the images have loaded: build the track pre-scrolled and become ready. */
    method Init(assets: map<string, Image>, now: real)
      requires Valid() && state == Loading && track == null
      modifies this
      ensures Valid() && fresh(track)
      ensures state == Ready && lastTime == now && raceTime == old(raceTime)
      ensures track.Settings() == DefaultConfig(assets)
      ensures track.tiles == Moved(SortByY(Layout(DefaultConfig(assets))), ScrollSpeed * PreScrollSeconds, DefaultOffsetXRatio)
    {
      var t := new Track(assets);
      track := t;
      t.GenerateWithPreScroll(scrollSpeed * PreScrollSeconds);
      state := Ready;
      lastTime := now;
    }

    /** Starts (or restarts) a race on a freshly generated, pre-scrolled track; ignored while racing. */
    method StartRace(now: real)
      requires Valid() && track != null
      modifies this, track
      ensures Valid() && track == old(track)
      ensures old(state) == Racing ==> unchanged(this) && unchanged(track)
      ensures old(state) != Racing ==>
        state == Racing && raceTime == 0.0 && lastTime == now &&
        track.Settings() == old(track.Settings()) && track.scrolled == ScrollSpeed * PreScrollSeconds &&
        track.tiles == Moved(SortByY(Layout(track.Settings())), ScrollSpeed * PreScrollSeconds, track.offsetXRatio)
    {
      if state == Racing {
        return;
      }
      state := Racing;
      raceTime := 0.0;
      lastTime := now;
      var preScrollOffset := scrollSpeed * PreScrollSeconds;
      track.GenerateWithPreScroll(preScrollOffset);
    }

    /** Advances the race by `deltaTime` ms; nothing happens unless racing. */
    method Update(deltaTime: real)
      requires Valid()
      modifies this, track
      ensures Valid() && track == old(track)
      ensures old(state) != Racing ==> unchanged(this) && (track != null ==> unchanged(track))
      ensures old(state) == Racing ==>
        raceTime == old(raceTime) + deltaTime / 1000.0 && lastTime == old(lastTime) &&
        track.Settings() == old(track.Settings()) &&
        track.tiles == Moved(old(track.tiles), Movement(ScrollSpeed, deltaTime), track.offsetXRatio) &&
        track.scrolled == old(track.scrolled) + Movement(ScrollSpeed, deltaTime) &&
        state == (if RaceOver(track.tiles) then Finished else Racing)
    {
      if state != Racing {
        return;
      }
      raceTime := raceTime + deltaTime / 1000.0;
      var movement := scrollSpeed * deltaTime / 1000.0;
      track.UpdateMovement(movement);
      var tiles := track.tiles;
      if |tiles| > 0 && tiles[|tiles| - 1].y < FinishLineY {
        FinishRace();
      }
    }

    method FinishRace()
      requires Valid() && track != null
      modifies this`state
      ensures Valid() && state == Finished
    {
      state := Finished;
    }

    /** The frame's drawing: the track's tiles and no racers. */
    method Render() returns (cmds: seq<Renderer.Command>)
      requires Valid() && track != null
      ensures cmds == Renderer.Frame(GameCanvas, Some(Renderer.TrackFrame(Some(track.tiles), track.width, track.height)), [])
    {
      cmds := Renderer.Render(GameCanvas, Some(Renderer.TrackFrame(Some(track.tiles), track.width, track.height)), []);
    }

    /**
     * One animation frame at `timestamp` ms: the clock always moves on, the
     * race advances only for a delta under MaxFrameDelta, then the frame is drawn.
     */
    method Loop(timestamp: real) returns (cmds: seq<Renderer.Command>)
      requires Valid() && track != null
      modifies this, track
      ensures Valid() && track == old(track) && lastTime == timestamp
      ensures timestamp - old(lastTime) >= MaxFrameDelta || old(state) != Racing ==>
        state == old(state) && raceTime == old(raceTime) && unchanged(track)
      ensures timestamp - old(lastTime) < MaxFrameDelta && old(state) == Racing ==>
        raceTime == old(raceTime) + (timestamp - old(lastTime)) / 1000.0 &&
        track.Settings() == old(track.Settings()) &&
        track.tiles == Moved(old(track.tiles), Movement(ScrollSpeed, timestamp - old(lastTime)), track.offsetXRatio) &&
        state == (if RaceOver(track.tiles) then Finished else Racing)
      ensures cmds == Renderer.Frame(GameCanvas, Some(Renderer.TrackFrame(Some(track.tiles), track.width, track.height)), [])
    {
      var deltaTime := timestamp - lastTime;
      lastTime := timestamp;
      if deltaTime < MaxFrameDelta {
        Update(deltaTime);
      }
      cmds := Render();
    }

    /** Recomputes the zoom-derived geometry and regenerates the track (no pre-scroll). */
    method RefreshTrack()
      requires track != null
      modifies track
      ensures track.width == ZoomedWidth(track.zoomFactor) && track.height == ZoomedHeight(track.zoomFactor)
      ensures track.initialX == CenteredX(track.width)
      ensures track.zoomFactor == old(track.zoomFactor) && track.offsetXRatio == old(track.offsetXRatio)
      ensures track.chainHeight == old(track.chainHeight) && track.sequence == old(track.sequence)
      ensures track.assets == old(track.assets)
      ensures track.tiles == SortByY(Layout(track.Settings()))
      ensures track.Valid() && track.Generated()
    {
      track.width := ZoomedWidth(track.zoomFactor);
      track.height := ZoomedHeight(track.zoomFactor);
      track.initialX := CenteredX(track.width);
      var _ := track.Generate();
    }

    /** The zoom input: applied and the track refreshed only for a number greater than zero. */
    method SetZoom(value: Option<real>)
      requires Valid() && track != null
      modifies track
      ensures Valid()
      ensures !AcceptsZoom(value) ==> unchanged(track)
      ensures AcceptsZoom(value) ==>
        track.zoomFactor == value.value &&
        track.width == ZoomedWidth(value.value) && track.height == ZoomedHeight(value.value) &&
        track.initialX == CenteredX(track.width) &&
        track.offsetXRatio == old(track.offsetXRatio) && track.chainHeight == old(track.chainHeight) &&
        track.sequence == old(track.sequence) && track.assets == old(track.assets) &&
        track.tiles == SortByY(Layout(track.Settings()))
    {
      if value.Some? && value.value > 0.0 {
        track.zoomFactor := value.value;
        RefreshTrack();
      }
    }

    /** The chain-height input: any number is applied, then the track is refreshed. */
    method SetChainHeight(value: Option<real>)
      requires Valid() && track != null
      modifies track
      ensures Valid()
      ensures value.None? ==> unchanged(track)
      ensures value.Some? ==>
        track.chainHeight == value.value && track.zoomFactor == old(track.zoomFactor) &&
        track.offsetXRatio == old(track.offsetXRatio) &&
        track.width == ZoomedWidth(track.zoomFactor) && track.height == ZoomedHeight(track.zoomFactor) &&
        track.initialX == CenteredX(track.width) &&
        track.sequence == old(track.sequence) && track.assets == old(track.assets) &&
        track.tiles == SortByY(Layout(track.Settings()))
    {
      if value.Some? {
        track.chainHeight := value.value;
        RefreshTrack();
      }
    }

    /** The diagonal-ratio input: any number is applied, then the track is refreshed. */
    method SetOffsetRatio(value: Option<real>)
      requires Valid() && track != null
      modifies track
      ensures Valid()
      ensures value.None? ==> unchanged(track)
      ensures value.Some? ==>
        track.offsetXRatio == value.value && track.zoomFactor == old(track.zoomFactor) &&
        track.chainHeight == old(track.chainHeight) &&
        track.width == ZoomedWidth(track.zoomFactor) && track.height == ZoomedHeight(track.zoomFactor) &&
        track.initialX == CenteredX(track.width) &&
        track.sequence == old(track.sequence) && track.assets == old(track.assets) &&
        track.tiles == SortByY(Layout(track.Settings()))
    {
      if value.Some? {
        track.offsetXRatio := value.value;
        RefreshTrack();
      }
    }

    /** Arrow keys nudge the chain height by 2 and the diagonal ratio by 0.005, then refresh. */
    method KeyDown(key: string)
      requires Valid()
      modifies track
      ensures Valid()
      ensures track != null && key == "ArrowUp" ==> track.chainHeight == old(track.chainHeight) + 2.0
      ensures track != null && key == "ArrowDown" ==> track.chainHeight == old(track.chainHeight) - 2.0
      ensures track != null && key == "ArrowRight" ==> track.offsetXRatio == old(track.offsetXRatio) + 0.005
      ensures track != null && key == "ArrowLeft" ==> track.offsetXRatio == old(track.offsetXRatio) - 0.005
      ensures track != null && (key == "ArrowUp" || key == "ArrowDown") ==> track.offsetXRatio == old(track.offsetXRatio)
      ensures track != null && (key == "ArrowRight" || key == "ArrowLeft") ==> track.chainHeight == old(track.chainHeight)
      ensures track != null && key in {"ArrowUp", "ArrowDown", "ArrowRight", "ArrowLeft"} ==>
        track.zoomFactor == old(track.zoomFactor) &&
        track.width == ZoomedWidth(track.zoomFactor) && track.height == ZoomedHeight(track.zoomFactor) &&
        track.initialX == CenteredX(track.width) &&
        track.sequence == old(track.sequence) && track.assets == old(track.assets) &&
        track.tiles == SortByY(Layout(track.Settings()))
      ensures track == null || key !in {"ArrowUp", "ArrowDown", "ArrowRight", "ArrowLeft"} ==>
        track == null || unchanged(track)
    {
      if track == null {
        return;
      }
      var changed := false;
      if key == "ArrowUp" {
        track.chainHeight := track.chainHeight + 2.0;
        changed := true;
      }
      if key == "ArrowDown" {
        track.chainHeight := track.chainHeight - 2.0;
        changed := true;
      }
      if key == "ArrowRight" {
        track.offsetXRatio := track.offsetXRatio + 0.005;
        changed := true;
      }
      if key == "ArrowLeft" {
        track.offsetXRatio := track.offsetXRatio - 0.005;
        changed := true;
      }
      if changed {
        RefreshTrack();
      }
    }
  }
}
