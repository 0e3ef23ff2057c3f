/** The sketch's global state and the procedures that update it: colour
    interpolation, the mode, rotation and blob appliers and cyclers, shape
    switching and the morph clock, the timed events that drive them, the
    tile-list operations and the key handler. */
module Sketch {
  import opened P5Math
  import opened Lerping
  import opened Modes
  import opened Tiles
  import opened Grid
  import opened TileFlags

  /** `frameRate(60)`: the switch intervals are counted in seconds of 60 frames. */
  const FramesPerSecond := 60
  const MaxSwitchTime := 30
  /** The noise reset is tried every 30 seconds. */
  const NoiseResetFrames := FramesPerSecond * 30

  /** A switch interval as `floor(random(10, maxSwitchTime))` draws it. */
  predicate SwitchTimeOk(seconds: int) {
    10 <= seconds < MaxSwitchTime
  }

  /** Whether a switch counter has run past its interval. */
  predicate Fires(counter: int, seconds: int) {
    counter > seconds * FramesPerSecond
  }

  /** One frame of a mode, shape or blob switch counter in `timedEvents`: it
      counts the frame, and once the count runs past the interval the
      switch fires and the counter restarts at 0. */
  function SwitchCount(counter: int, seconds: int): (r: int)
    ensures r == 0 || r == counter + 1
    ensures 0 <= counter <= seconds * FramesPerSecond ==> 0 <= r <= seconds * FramesPerSecond
  {
    if Fires(counter + 1, seconds) then 0 else counter + 1
  }

  /** A switch counter after `n` frames with its interval left alone. */
  function SwitchCountAfter(counter: int, seconds: int, n: nat): int
    decreases n
  {
    if n == 0 then counter else SwitchCount(SwitchCountAfter(counter, seconds, n - 1), seconds)
  }

  /** A counter restarted at 0 counts one per frame up to its interval
      without firing. */
  lemma {:induction false} CounterCounts(seconds: int, n: nat)
    requires SwitchTimeOk(seconds) && n <= seconds * FramesPerSecond
    ensures SwitchCountAfter(0, seconds, n) == n
    decreases n
  {
    if n > 0 {
      CounterCounts(seconds, n - 1);
    }
  }

  /** A switch restarted at 0 (and so holding its interval) fires for the
      first time on frame `seconds * 60 + 1`: 601 to 1741 frames after its
      last firing. */
  lemma FirstFiring(seconds: int)
    requires SwitchTimeOk(seconds)
    ensures forall n: nat :: n <= seconds * FramesPerSecond ==> SwitchCountAfter(0, seconds, n) == n
    ensures SwitchCountAfter(0, seconds, seconds * FramesPerSecond + 1) == 0
    ensures 601 <= seconds * FramesPerSecond + 1 <= 1741
  {
    forall n: nat | n <= seconds * FramesPerSecond
      ensures SwitchCountAfter(0, seconds, n) == n
    {
      CounterCounts(seconds, n);
    }
    CounterCounts(seconds, seconds * FramesPerSecond);
  }

  /** The next shape interval once `shown` is on screen: 10 to 29 seconds
      for squares, 10 to 14 for circles, which stay for less time. */
  function NextShapeWait(shown: int, wait: real): (r: int)
    requires IsUnit(wait)
    ensures shown == RectState ==> 10 <= r < MaxSwitchTime
    ensures shown != RectState ==> 10 <= r <= 14
  {
    if shown == RectState then FloorRandom(wait, 10, MaxSwitchTime)
    else FloorRandom(wait, 10, MaxSwitchTime / 2)
  }

  /** The random numbers one frame may draw, each a `random()` in [0, 1):
      a mode, the three intervals, a blob and a rotation mode with one coin
      per tile each, and one draw per tile for a shuffle. */
  datatype Draws = Draws(
    mode: real, modeWait: real, shapeWait: real,
    blob: real, blobCoins: seq<real>, blobWait: real,
    rotation: real, rotationCoins: seq<real>, rotationWait: real,
    shuffle: seq<real>)
  {
    predicate Fits(n: int) {
      && IsUnit(mode) && IsUnit(modeWait) && IsUnit(shapeWait)
      && IsUnit(blob) && |blobCoins| == n && AllUnit(blobCoins) && IsUnit(blobWait)
      && IsUnit(rotation) && |rotationCoins| == n && AllUnit(rotationCoins) && IsUnit(rotationWait)
      && |shuffle| == n && AllUnit(shuffle)
    }
  }

  /** What `drawTiles` leaves behind for the next frame, per tile in list
      order: the morph ring `drawShape` has moved toward its target, the two
      `Math.random()` draws behind the hue and saturation noise steps of
      `compute`, and whether the `scale` that `compute` left is at least 1. */
  datatype Pass = Pass(rings: seq<seq<Point>>, hueDraws: seq<real>, satDraws: seq<real>, scaled: seq<bool>)
  {
    predicate Fits(n: int) {
      && |rings| == n && (forall k :: 0 <= k < n ==> |rings[k]| == RingSize)
      && |hueDraws| == n && AllUnit(hueDraws) && |satDraws| == n && AllUnit(satDraws)
      && |scaled| == n
    }
  }

  /** `drawTiles` over the whole list: a valid grid stays valid, and each
      tile changes only in its morph ring (now ring k of the pass) and its
      noise phases. */
  function DrawAll(s: seq<Tile>, p: Pass): (r: seq<Tile>)
    requires p.Fits(|s|)
    ensures |r| == |s|
    ensures forall k :: 0 <= k < |s| ==> r[k] == DrawnTile(s[k], p.rings[k], p.hueDraws[k], p.satDraws[k])
    ensures GridShapeOk(s) ==> GridShapeOk(r)
    ensures forall k :: 0 <= k < |s| ==> r[k] == s[k].(morph := p.rings[k], hT := r[k].hT, sT := r[k].sT)
  {
    var r := seq(|s|, k requires 0 <= k < |s| => DrawnTile(s[k], p.rings[k], p.hueDraws[k], p.satDraws[k]));
    SameIndicesKeepPerm(s, r);
    r
  }

  /** The test at the end of each tile's turn in `drawTiles`: some tile
      shows a square, or its `scale` reached 1. */
  predicate Overlapping(s: seq<Tile>, p: Pass)
    requires p.Fits(|s|)
  {
    exists k :: 0 <= k < |s| && (p.scaled[k] || s[k].state == RectState)
  }

  /** The test over the first `n` tiles, as `drawTiles` accumulates it. */
  function OverlapsBefore(s: seq<Tile>, scaled: seq<bool>, n: nat): bool
    requires n <= |s| && n <= |scaled|
  {
    if n == 0 then false
    else OverlapsBefore(s, scaled, n - 1) || scaled[n - 1] || s[n - 1].state == RectState
  }

  /** Accumulating the test tile by tile finds an overlapping tile exactly
      when there is one. */
  lemma {:induction false} OverlapsBeforeExists(s: seq<Tile>, scaled: seq<bool>, n: nat)
    requires n <= |s| && n <= |scaled|
    ensures OverlapsBefore(s, scaled, n) <==> exists k :: 0 <= k < n && (scaled[k] || s[k].state == RectState)
  {
    if n > 0 {
      OverlapsBeforeExists(s, scaled, n - 1);
      if scaled[n - 1] || s[n - 1].state == RectState {
        assert 0 <= n - 1 < n && (scaled[n - 1] || s[n - 1].state == RectState);
      }
    }
  }

  /** The drawing pass sees the same shapes it was given, so the test reads
      the same on the list before and after it. */
  lemma DrawKeepsOverlapping(s: seq<Tile>, p: Pass)
    requires p.Fits(|s|)
    ensures Overlapping(DrawAll(s, p), p) == Overlapping(s, p)
  {
    var r := DrawAll(s, p);
    assert forall k :: 0 <= k < |s| ==> r[k].state == s[k].state;
  }

  /** On a valid grid no tile overlaps exactly when circles are shown and
      no scale reached 1; in particular a pass over squares always
      overlaps, which holds the next reshuffle back. */
  lemma OverlappingShapes(s: seq<Tile>, p: Pass)
    requires GridShapeOk(s) && p.Fits(|s|)
    ensures !Overlapping(s, p) <==> s[0].state == CircleState && forall k :: 0 <= k < |s| ==> !p.scaled[k]
    ensures s[0].state == RectState ==> Overlapping(s, p)
  {
    if s[0].state == RectState {
      assert p.scaled[0] || s[0].state == RectState;
    }
  }

  /** The settlement check can pass after a drawing pass: a list of more
      than 15 tiles whose new morph rings sit on their targets is settled. */
  lemma DrawnOnTargetSettles(s: seq<Tile>, p: Pass)
    requires AllWellFormed(s) && |s| > SettledNeeded && p.Fits(|s|)
    requires forall k :: 0 <= k < |s| ==> p.rings[k] == (if s[k].state == CircleState then s[k].circle else s[k].rect)
    ensures AllWellFormed(DrawAll(s, p)) && Settled(DrawAll(s, p))
  {
    var r := DrawAll(s, p);
    assert forall k :: 0 <= k < |s| ==> WellFormed(r[k]);
    SettledExtremes(r);
  }

  /** The rotation switch's gate on a tile list and the morphing and
      blobbing flags: circles shown, no morphing, no blobbing, and the shapes
      settled. */
  predicate GateOpen(s: seq<Tile>, morphing: bool, blobbing: bool) {
    |s| > 0 && AllWellFormed(s) && s[0].state == CircleState && !morphing && !blobbing && Settled(s)
  }

  /** Which switches of `timedEvents` have run past their intervals. */
  datatype Due = Due(mode: bool, shape: bool, blob: bool, rotation: bool)

  /** The tile list after a frame's shape switch and blob switch, as far as
      they are due; `blobMode` is the blob mode the blob switch picked. */
  function ShapedAndBlobbed(s: seq<Tile>, due: Due, blobMode: int, coins: seq<real>): (r: seq<Tile>)
    requires |coins| == |s| && AllUnit(coins)
    ensures |r| == |s|
  {
    var shaped := if due.shape then FlipAll(s) else s;
    if due.blob then BlobAll(blobMode, shaped, coins) else shaped
  }

  /** Whether the rotation switch fires in a frame: it is due, and the gate
      is open on the list and flags that the shape and blob switches of the
      same frame left. */
  predicate RotationFires(s: seq<Tile>, due: Due, blobMode: int, d: Draws, morphing: bool, blobbing: bool)
    requires d.Fits(|s|)
  {
    due.rotation && GateOpen(ShapedAndBlobbed(s, due, blobMode, d.blobCoins), morphing, blobbing)
  }

  /** The tile list after the switches of one frame, in source order: the
      shape flip, the blob flags and, through the gate, the rotation flags. */
  function SwitchedTiles(s: seq<Tile>, due: Due, blobMode: int, rotationMode: int, d: Draws,
                         morphing: bool, blobbing: bool): (r: seq<Tile>)
    requires d.Fits(|s|)
    ensures |r| == |s|
  {
    var blobbed := ShapedAndBlobbed(s, due, blobMode, d.blobCoins);
    if RotationFires(s, due, blobMode, d, morphing, blobbing)
    then RotateAll(rotationMode, blobbed, d.rotationCoins)
    else blobbed
  }

  class Untiled {
    /** The tile list; only its contents and order change. */
    const tiles: array<Tile>
    /** The tiles in the order `pushTiles` created them, before setup's shuffle. */
    ghost var pushed: seq<Tile>
    /** The tiles after `pushTiles`' shuffle, before the random modes are applied. */
    ghost var shuffled: seq<Tile>

    var areMorphing: bool
    var morphCounter: int
    var mode: int
    var nextModeSwitch: int
    var modeSwitchCounter: int
    var nextShapeSwitch: int
    var shapeSwitchCounter: int
    var nextBlobSwitch: int
    var blobSwitchCounter: int
    var nextRotationSwitch: int
    var rotationSwitchCounter: int
    var rotationMode: int
    var areRotating: bool
    var blobMode: int
    var areBlobbing: bool
    /** The shared interpolation counter. */
    var lerpCount: nat
    /** `bgColor`, `fillAlpha`, `fillBrightness`, `strokeAlpha`, `strokeBrightness`. */
    var colors: Palette
    /** The five `*Target` values. */
    var targets: Palette
    /** Whether the last drawing pass showed a square or a tile at full
        scale; it holds the reshuffle back. */
    var areOverlapping: bool

    /** The invariant of the running sketch: a valid grid whose flags agree
        with the rotation and blob modes, targets from the mode table,
        colours in range, and every counter and interval in its range.
        (`blobMode` is 0 only before setup's first `randomBlobMode`.) */
    predicate Valid()
      reads this, tiles
    {
      && GridShapeOk(tiles[..])
      && 1 <= mode <= 10 && targets == ModeTable(mode, targets)
      && InRanges(colors) && lerpCount <= LerpTime
      && 1 <= rotationMode <= 5 && areRotating == (rotationMode >= 3)
      && 0 <= blobMode <= 3 && areBlobbing == (blobMode >= 2)
      && (forall k :: 0 <= k < tiles.Length ==> RotationAgrees(rotationMode, tiles[k]))
      && (forall k :: 0 <= k < tiles.Length ==> BlobAgrees(blobMode, tiles[k]))
      && 0 <= morphCounter <= MorphTime
      && 0 <= modeSwitchCounter && 0 <= shapeSwitchCounter
      && 0 <= blobSwitchCounter && 0 <= rotationSwitchCounter
      && SwitchTimeOk(nextModeSwitch) && SwitchTimeOk(nextShapeSwitch)
      && SwitchTimeOk(nextBlobSwitch) && SwitchTimeOk(nextRotationSwitch)
    }

    /** The globals that `setup` leaves at their declared values: the
        colours, the lerp counter, the morph clock, the four switch counters
        at 0 and the four switch intervals at 10 seconds. */
    predicate Declared()
      reads this`colors, this`lerpCount, this`areMorphing, this`morphCounter
      reads this`modeSwitchCounter, this`shapeSwitchCounter, this`blobSwitchCounter, this`rotationSwitchCounter
      reads this`nextModeSwitch, this`nextShapeSwitch, this`nextBlobSwitch, this`nextRotationSwitch
    {
      && colors == Palette(360, 0, 0, 100, 0) && lerpCount == LerpTime
      && !areMorphing && morphCounter == 0
      && modeSwitchCounter == 0 && shapeSwitchCounter == 0 && blobSwitchCounter == 0 && rotationSwitchCounter == 0
      && nextModeSwitch == 10 && nextShapeSwitch == 10 && nextBlobSwitch == 10 && nextRotationSwitch == 10
    }

    /** The switches that are due once every counter has counted `frames`
        more frames. */
    function DueIn(frames: int): Due
      reads this
    {
      Due(Fires(modeSwitchCounter + frames, nextModeSwitch), Fires(shapeSwitchCounter + frames, nextShapeSwitch),
          Fires(blobSwitchCounter + frames, nextBlobSwitch), Fires(rotationSwitchCounter + frames, nextRotationSwitch))
    }

    /** What the mode, shape and blob switches of one frame do, given
        which of them are `due`: a due mode switch draws a mode and applies
        its row; a due shape switch starts the morphing and draws the
        interval for the shape now shown; a due blob switch follows
        `randomBlobMode`. Each switch that fires draws its next interval;
        the others keep theirs. */
    twostate predicate EarlySwitched(due: Due, d: Draws)
      requires tiles.Length > 0 && d.Fits(tiles.Length)
      reads this, tiles
    {
      && (if due.mode then
            && mode == FloorRandom(d.mode, 1, 11) && targets == ModeTable(mode, old(targets))
            && nextModeSwitch == FloorRandom(d.modeWait, 10, MaxSwitchTime)
          else mode == old(mode) && targets == old(targets) && nextModeSwitch == old(nextModeSwitch))
      && areMorphing == (due.shape || old(areMorphing))
      && nextShapeSwitch == (if due.shape then NextShapeWait(FlipState(old(tiles[0].state)), d.shapeWait)
                             else old(nextShapeSwitch))
      && (if due.blob then
            && blobMode == RandomBlobId(old(blobMode), d.blob)
            && areBlobbing == BlobbingAfter(blobMode, old(areBlobbing))
            && nextBlobSwitch == FloorRandom(d.blobWait, 10, MaxSwitchTime)
          else blobMode == old(blobMode) && areBlobbing == old(areBlobbing) && nextBlobSwitch == old(nextBlobSwitch))
    }

    /** What the rotation switch does when it `fires`: a random rotation
        mode, applied, and a new interval; otherwise nothing changes. */
    twostate predicate RotationSwitched(fires: bool, d: Draws)
      requires d.Fits(tiles.Length)
      reads this
    {
      if fires then
        && rotationMode == FloorRandom(d.rotation, 1, 6)
        && areRotating == RotatingAfter(rotationMode, old(areRotating))
        && nextRotationSwitch == FloorRandom(d.rotationWait, 10, MaxSwitchTime)
      else
        && rotationMode == old(rotationMode) && areRotating == old(areRotating)
        && nextRotationSwitch == old(nextRotationSwitch)
    }

    /** `setup`: the grid is pushed and shuffled, then a random mode, a
        random rotation mode and a random blob mode are applied. The
        globals start as declared; `lerpCount` (undefined in the source, so
        that the first interpolation snaps) starts at lerpTime, `areBlobbing`
        (undefined, so falsy) at false, and the targets (undefined until
        `randomMode`) at mode 1's row. */
    constructor (fromAngle: int -> Point, us: seq<real>, d: Draws)
      requires |us| == GridCount && AllUnit(us) && d.Fits(GridCount)
      ensures Valid() && fresh(tiles) && tiles.Length == GridCount
      ensures PushOrder(pushed)
      ensures shuffled == ShuffleDown(pushed, us, |pushed| - 1)
      ensures tiles[..] == BlobAll(1, RotateAll(rotationMode, shuffled, d.rotationCoins), d.blobCoins)
      ensures AllInState(tiles[..], RectState)
      ensures mode == FloorRandom(d.mode, 1, 11)
      ensures rotationMode == FloorRandom(d.rotation, 1, 6)
      ensures blobMode == 1 && !areBlobbing
      ensures Declared() && areOverlapping
    {
      var a, built := PushTiles(fromAngle, us);
      tiles := a;
      pushed := built;
      shuffled := a[..];
      areMorphing := false;
      morphCounter := 0;
      mode := 1;
      nextModeSwitch := 10;
      modeSwitchCounter := 0;
      nextShapeSwitch := 10;
      shapeSwitchCounter := 0;
      nextBlobSwitch := 10;
      blobSwitchCounter := 0;
      nextRotationSwitch := 10;
      rotationSwitchCounter := 0;
      rotationMode := 1;
      areRotating := false;
      blobMode := 0;
      areBlobbing := false;
      lerpCount := LerpTime;
      colors := Palette(360, 0, 0, 100, 0);
      targets := ModeTable(1, Palette(360, 0, 0, 100, 0));
      areOverlapping := true;
      new;
      assert Declared();
      RandomModes(d);
      FlagsKeepState(shuffled, rotationMode, d.rotationCoins, blobMode, d.blobCoins, RectState);
    }

    /** The last steps of `setup`: a random mode, rotation mode and blob
        mode, each applied to the targets or to every tile. */
    method RandomModes(d: Draws)
      requires Valid() && d.Fits(tiles.Length)
      modifies tiles, this`mode, this`targets, this`rotationMode, this`areRotating
      modifies this`blobMode, this`areBlobbing
      ensures Valid()
      ensures mode == FloorRandom(d.mode, 1, 11) && targets == ModeTable(mode, old(targets))
      ensures rotationMode == FloorRandom(d.rotation, 1, 6)
      ensures blobMode == RandomBlobId(old(blobMode), d.blob)
      ensures tiles[..] == BlobAll(blobMode, RotateAll(rotationMode, old(tiles[..]), d.rotationCoins), d.blobCoins)
      ensures unchanged(this`colors, this`lerpCount, this`areMorphing, this`morphCounter)
      ensures unchanged(this`modeSwitchCounter, this`shapeSwitchCounter, this`blobSwitchCounter, this`rotationSwitchCounter)
      ensures unchanged(this`nextModeSwitch, this`nextShapeSwitch, this`nextBlobSwitch, this`nextRotationSwitch)
    {
      RandomMode(d.mode);
      RandomRotationMode(d.rotation, d.rotationCoins);
      ghost var rotated := tiles[..];
      RandomBlobMode(d.blob, d.blobCoins);
      assert tiles[..] == BlobAll(blobMode, rotated, d.blobCoins);
    }

    /** `lerpOverTime`: one scalar's step, advancing or resetting the shared counter. */
    method LerpOverTime(value: int, target: int) returns (r: int)
      modifies this`lerpCount
      ensures Lerped(r, lerpCount) == Lerping.LerpOverTime(value, target, old(lerpCount))
    {
      if value != target && lerpCount < LerpTime {
        lerpCount := lerpCount + 1;
        r := FlooredLerp(value, target, lerpCount);
        if target > r {
          r := r + 1;
        } else if target < r {
          r := r - 1;
        }
      } else {
        lerpCount := 0;
        r := target;
      }
    }

    /** `computeLerping`: the five scalars in order, one shared counter. */
    method ComputeLerping()
      requires Valid()
      modifies this`colors, this`lerpCount
      ensures Valid()
      ensures LerpFrame(colors, lerpCount) == LerpColors(old(colors), targets, old(lerpCount))
    {
      var bg := LerpOverTime(colors.bg, targets.bg);
      var fillAlpha := LerpOverTime(colors.fillAlpha, targets.fillAlpha);
      var fillBrightness := LerpOverTime(colors.fillBrightness, targets.fillBrightness);
      var strokeAlpha := LerpOverTime(colors.strokeAlpha, targets.strokeAlpha);
      var strokeBrightness := LerpOverTime(colors.strokeBrightness, targets.strokeBrightness);
      colors := Palette(bg, fillAlpha, fillBrightness, strokeAlpha, strokeBrightness);
    }

    /** `applyMode`: the targets from the mode table (unchanged for an unknown mode). */
    method ApplyMode()
      modifies this`targets
      ensures targets == ModeTable(mode, old(targets))
    {
      targets := ModeTable(mode, targets);
    }

    /** `nextMode`: step to the next mode, 10 wrapping to 1, and apply it. */
    method NextMode()
      requires Valid()
      modifies this`mode, this`targets
      ensures Valid()
      ensures mode == NextModeId(old(mode)) && mode == old(mode) % 10 + 1
      ensures targets == ModeTable(mode, old(targets))
    {
      if mode < 10 {
        mode := mode + 1;
      } else {
        mode := 1;
      }
      ApplyMode();
    }

    /** `randomMode`: `floor(random(1, 11))`, then apply it. */
    method RandomMode(u: real)
      requires Valid() && IsUnit(u)
      modifies this`mode, this`targets
      ensures Valid()
      ensures mode == FloorRandom(u, 1, 11) && 1 <= mode <= 10
      ensures targets == ModeTable(mode, old(targets))
    {
      mode := FloorRandom(u, 1, 11);
      ApplyMode();
    }

    /** `applyRotationMode`: set `areRotating` and every tile's rotation flags. */
    method ApplyRotationMode(coins: seq<real>)
      requires |coins| == tiles.Length
      modifies this`areRotating, tiles
      ensures areRotating == RotatingAfter(rotationMode, old(areRotating))
      ensures forall k :: 0 <= k < tiles.Length ==>
        tiles[k] == RotatedTile(rotationMode, old(tiles[k]), coins[k])
    {
      if 1 <= rotationMode <= 5 {
        areRotating := rotationMode >= 3;
      }
      var i := 0;
      while i < tiles.Length
        modifies tiles
        invariant 0 <= i <= tiles.Length
        invariant forall k :: 0 <= k < i ==> tiles[k] == RotatedTile(rotationMode, old(tiles[k]), coins[k])
        invariant forall k :: i <= k < tiles.Length ==> tiles[k] == old(tiles[k])
      {
        tiles[i] := RotatedTile(rotationMode, tiles[i], coins[i]);
        i := i + 1;
      }
    }

    /** Rotation flags changed as the (valid) rotation mode says keep the
        sketch valid. */
    lemma RotationKeepsValid(before: seq<Tile>, coins: seq<real>)
      requires |before| == tiles.Length == |coins|
      requires 1 <= rotationMode <= 5
      requires forall k :: 0 <= k < tiles.Length ==> tiles[k] == RotatedTile(rotationMode, before[k], coins[k])
      ensures SameGeometry(before, tiles[..])
      ensures forall k :: 0 <= k < tiles.Length ==> RotationAgrees(rotationMode, tiles[k])
      ensures forall k :: 0 <= k < tiles.Length ==> tiles[k].isBlobbing == before[k].isBlobbing
    {
    }

    /** `nextRotationMode`: step through 1 .. 5, wrapping, and apply. */
    method NextRotationMode(coins: seq<real>)
      requires Valid() && |coins| == tiles.Length
      modifies this`rotationMode, this`areRotating, tiles
      ensures Valid()
      ensures rotationMode == NextRotationId(old(rotationMode))
      ensures forall k :: 0 <= k < tiles.Length ==>
        tiles[k] == RotatedTile(rotationMode, old(tiles[k]), coins[k])
    {
      if rotationMode < 5 {
        rotationMode := rotationMode + 1;
      } else {
        rotationMode := 1;
      }
      ApplyRotationMode(coins);
      RotationKeepsValid(old(tiles[..]), coins);
      SameGeometryKeeps(old(tiles[..]), tiles[..]);
    }

    /** `randomRotationMode`: `floor(random(1, 6))`, then apply. */
    method RandomRotationMode(u: real, coins: seq<real>)
      requires Valid() && IsUnit(u) && |coins| == tiles.Length
      modifies this`rotationMode, this`areRotating, tiles
      ensures Valid()
      ensures rotationMode == FloorRandom(u, 1, 6)
      ensures forall k :: 0 <= k < tiles.Length ==>
        tiles[k] == RotatedTile(rotationMode, old(tiles[k]), coins[k])
    {
      rotationMode := FloorRandom(u, 1, 6);
      ApplyRotationMode(coins);
      RotationKeepsValid(old(tiles[..]), coins);
      SameGeometryKeeps(old(tiles[..]), tiles[..]);
    }

    /** `applyBlobMode`: set `areBlobbing` and every tile's blob flag. */
    method ApplyBlobMode(coins: seq<real>)
      requires |coins| == tiles.Length && AllUnit(coins)
      modifies this`areBlobbing, tiles
      ensures areBlobbing == BlobbingAfter(blobMode, old(areBlobbing))
      ensures forall k :: 0 <= k < tiles.Length ==>
        tiles[k] == BlobbedTile(blobMode, old(tiles[k]), coins[k])
    {
      if 1 <= blobMode <= 3 {
        areBlobbing := blobMode >= 2;
      }
      var i := 0;
      while i < tiles.Length
        modifies tiles
        invariant 0 <= i <= tiles.Length
        invariant forall k :: 0 <= k < i ==> tiles[k] == BlobbedTile(blobMode, old(tiles[k]), coins[k])
        invariant forall k :: i <= k < tiles.Length ==> tiles[k] == old(tiles[k])
      {
        tiles[i] := BlobbedTile(blobMode, tiles[i], coins[i]);
        i := i + 1;
      }
    }

    /** Blob flags changed as the (valid) blob mode says keep the sketch valid. */
    lemma BlobKeepsValid(before: seq<Tile>, coins: seq<real>)
      requires |before| == tiles.Length == |coins| && AllUnit(coins)
      requires 1 <= blobMode <= 3
      requires forall k :: 0 <= k < tiles.Length ==> tiles[k] == BlobbedTile(blobMode, before[k], coins[k])
      ensures SameGeometry(before, tiles[..])
      ensures forall k :: 0 <= k < tiles.Length ==> BlobAgrees(blobMode, tiles[k])
      ensures forall k :: 0 <= k < tiles.Length ==>
        tiles[k].isRotating == before[k].isRotating && tiles[k].rotatingRight == before[k].rotatingRight
    {
    }

    /** `nextBlobMode`: step through 1 .. 3 (the initial 0 steps to 1), and apply. */
    method NextBlobMode(coins: seq<real>)
      requires Valid() && |coins| == tiles.Length && AllUnit(coins)
      modifies this`blobMode, this`areBlobbing, tiles
      ensures Valid()
      ensures blobMode == NextBlobId(old(blobMode))
      ensures forall k :: 0 <= k < tiles.Length ==>
        tiles[k] == BlobbedTile(blobMode, old(tiles[k]), coins[k])
    {
      if blobMode < 3 {
        blobMode := blobMode + 1;
      } else {
        blobMode := 1;
      }
      ApplyBlobMode(coins);
      BlobKeepsValid(old(tiles[..]), coins);
      SameGeometryKeeps(old(tiles[..]), tiles[..]);
    }

    /** `randomBlobMode`: back to "no blobs" after any other mode, otherwise
        `floor(random(1, 4))`; then apply. */
    method RandomBlobMode(u: real, coins: seq<real>)
      requires Valid() && IsUnit(u) && |coins| == tiles.Length && AllUnit(coins)
      modifies this`blobMode, this`areBlobbing, tiles
      ensures Valid()
      ensures blobMode == RandomBlobId(old(blobMode), u)
      ensures forall k :: 0 <= k < tiles.Length ==>
        tiles[k] == BlobbedTile(blobMode, old(tiles[k]), coins[k])
    {
      if blobMode != 1 {
        blobMode := 1;
      } else {
        blobMode := FloorRandom(u, 1, 4);
      }
      ApplyBlobMode(coins);
      BlobKeepsValid(old(tiles[..]), coins);
      SameGeometryKeeps(old(tiles[..]), tiles[..]);
    }

    /** `switchShapes`: start morphing and flip every tile's shape. */
    method SwitchShapes()
      requires Valid()
      modifies this`areMorphing, tiles
      ensures Valid() && areMorphing
      ensures tiles[..] == FlipAll(old(tiles[..]))
      ensures AllInState(tiles[..], 1 - old(tiles[0].state))
    {
      areMorphing := true;
      var i := 0;
      while i < tiles.Length
        modifies tiles
        invariant 0 <= i <= tiles.Length
        invariant forall k :: 0 <= k < i ==> tiles[k] == FlippedTile(old(tiles[k]))
        invariant forall k :: i <= k < tiles.Length ==> tiles[k] == old(tiles[k])
      {
        var b := tiles[i];
        tiles[i] := b.(state := FlipState(b.state));
        i := i + 1;
      }
      assert tiles[..] == FlipAll(old(tiles[..]));
    }

    /** `incMorphCounter`: one tick of the morph clock. */
    method IncMorphCounter()
      requires Valid()
      modifies this`morphCounter, this`areMorphing
      ensures Valid()
      ensures Morph(morphCounter, areMorphing) == MorphTick(Morph(old(morphCounter), old(areMorphing)))
    {
      morphCounter := morphCounter + 1;
      if morphCounter > MorphTime {
        morphCounter := 0;
        areMorphing := false;
      }
    }

    /** The circles and squares keys: every tile to one shape state. */
    method ForceShape(state: int)
      requires Valid() && (state == CircleState || state == RectState)
      modifies tiles
      ensures Valid() && AllInState(tiles[..], state)
      ensures forall k :: 0 <= k < tiles.Length ==> tiles[k] == old(tiles[k]).(state := state)
    {
      var i := 0;
      while i < tiles.Length
        modifies tiles
        invariant 0 <= i <= tiles.Length
        invariant forall k :: 0 <= k < i ==> tiles[k] == old(tiles[k]).(state := state)
        invariant forall k :: i <= k < tiles.Length ==> tiles[k] == old(tiles[k])
      {
        tiles[i] := tiles[i].(state := state);
        i := i + 1;
      }
      ForceKeepsGrid(old(tiles[..]), tiles[..], state);
    }

    /** `resetNoise`: every tile's hue and saturation noise phases back to 0. */
    method ResetNoise()
      requires Valid()
      modifies tiles
      ensures Valid()
      ensures tiles[..] == ResetAll(old(tiles[..]))
    {
      var i := 0;
      while i < tiles.Length
        modifies tiles
        invariant 0 <= i <= tiles.Length
        invariant forall k :: 0 <= k < i ==> tiles[k] == old(tiles[k]).(hT := 0.0, sT := 0.0)
        invariant forall k :: i <= k < tiles.Length ==> tiles[k] == old(tiles[k])
      {
        tiles[i] := tiles[i].(hT := 0.0, sT := 0.0);
        i := i + 1;
      }
      assert SameGeometry(old(tiles[..]), tiles[..]);
      SameGeometryKeeps(old(tiles[..]), tiles[..]);
    }

    /** `shuffleArrayRandomly(tiles)`: a permutation of the same tiles. */
    method ShuffleTiles(us: seq<real>)
      requires Valid() && |us| == tiles.Length && AllUnit(us)
      modifies tiles
      ensures Valid()
      ensures tiles[..] == ShuffleDown(old(tiles[..]), us, tiles.Length - 1)
      ensures multiset(tiles[..]) == multiset(old(tiles[..]))
    {
      ShuffleArrayRandomly(tiles, us);
      ShuffleKeepsGrid(old(tiles[..]), us);
      assert forall k :: 0 <= k < tiles.Length ==> tiles[k] in old(tiles[..]);
    }

    /** `orderArrayByAscendingIndex(tiles)`: the tiles back in push order. */
    method OrderTiles()
      requires Valid()
      modifies tiles
      ensures Valid()
      ensures forall k :: 0 <= k < tiles.Length ==> tiles[k].index == k
      ensures forall m :: 0 <= m < tiles.Length ==> tiles[old(tiles[m]).index] == old(tiles[m])
    {
      OrderArrayByAscendingIndex(tiles);
      OrderKeepsGrid(old(tiles[..]), tiles[..]);
    }

    /** The mode switch of `timedEvents`. */
    method ModeEvent(u: real, wait: real)
      requires Valid() && IsUnit(u) && IsUnit(wait)
      modifies this`mode, this`targets, this`nextModeSwitch, this`modeSwitchCounter
      ensures Valid()
      ensures Fires(old(modeSwitchCounter), old(nextModeSwitch)) ==>
        && mode == FloorRandom(u, 1, 11) && targets == ModeTable(mode, old(targets))
        && nextModeSwitch == FloorRandom(wait, 10, MaxSwitchTime) && modeSwitchCounter == 0
      ensures !Fires(old(modeSwitchCounter), old(nextModeSwitch)) ==>
        && mode == old(mode) && targets == old(targets)
        && nextModeSwitch == old(nextModeSwitch) && modeSwitchCounter == old(modeSwitchCounter)
    {
      if modeSwitchCounter > nextModeSwitch * FramesPerSecond {
        RandomMode(u);
        nextModeSwitch := FloorRandom(wait, 10, MaxSwitchTime);
        modeSwitchCounter := 0;
      }
    }

    /** The shape switch of `timedEvents`: the next interval is 10 to 29
        seconds when squares are now shown, 10 to 14 when circles are. */
    method ShapeEvent(wait: real)
      requires Valid() && IsUnit(wait)
      modifies this`areMorphing, tiles, this`nextShapeSwitch, this`shapeSwitchCounter
      ensures Valid()
      ensures Fires(old(shapeSwitchCounter), old(nextShapeSwitch)) ==>
        && areMorphing && shapeSwitchCounter == 0
        && tiles[..] == FlipAll(old(tiles[..]))
        && tiles[0].state == FlipState(old(tiles[0].state))
        && nextShapeSwitch == NextShapeWait(tiles[0].state, wait)
      ensures !Fires(old(shapeSwitchCounter), old(nextShapeSwitch)) ==>
        && areMorphing == old(areMorphing) && tiles[..] == old(tiles[..])
        && nextShapeSwitch == old(nextShapeSwitch) && shapeSwitchCounter == old(shapeSwitchCounter)
    {
      if shapeSwitchCounter > nextShapeSwitch * FramesPerSecond {
        SwitchShapes();
        if tiles[0].state == RectState {
          nextShapeSwitch := FloorRandom(wait, 10, MaxSwitchTime);
        } else {
          nextShapeSwitch := FloorRandom(wait, 10, MaxSwitchTime / 2);
        }
        shapeSwitchCounter := 0;
      }
    }

    /** The blob switch of `timedEvents`. */
    method BlobEvent(u: real, coins: seq<real>, wait: real)
      requires Valid() && IsUnit(u) && |coins| == tiles.Length && AllUnit(coins) && IsUnit(wait)
      modifies this`blobMode, this`areBlobbing, tiles, this`nextBlobSwitch, this`blobSwitchCounter
      ensures Valid()
      ensures Fires(old(blobSwitchCounter), old(nextBlobSwitch)) ==>
        && blobMode == RandomBlobId(old(blobMode), u)
        && areBlobbing == BlobbingAfter(blobMode, old(areBlobbing))
        && tiles[..] == BlobAll(blobMode, old(tiles[..]), coins)
        && nextBlobSwitch == FloorRandom(wait, 10, MaxSwitchTime) && blobSwitchCounter == 0
      ensures !Fires(old(blobSwitchCounter), old(nextBlobSwitch)) ==>
        && blobMode == old(blobMode) && areBlobbing == old(areBlobbing) && tiles[..] == old(tiles[..])
        && nextBlobSwitch == old(nextBlobSwitch) && blobSwitchCounter == old(blobSwitchCounter)
    {
      if blobSwitchCounter > nextBlobSwitch * FramesPerSecond {
        RandomBlobMode(u, coins);
        nextBlobSwitch := FloorRandom(wait, 10, MaxSwitchTime);
        blobSwitchCounter := 0;
      }
    }

    /** The rotation switch of `timedEvents`: once its interval has run
        out it fires only through the gate (circles, no morphing, no
        blobbing, shapes settled); a closed gate leaves the counter running
        and the rotation untouched. */
    method RotationEvent(u: real, coins: seq<real>, wait: real)
      requires Valid() && IsUnit(u) && |coins| == tiles.Length && IsUnit(wait)
      modifies this`rotationMode, this`areRotating, tiles, this`nextRotationSwitch, this`rotationSwitchCounter
      ensures Valid()
      ensures Fires(old(rotationSwitchCounter), old(nextRotationSwitch)) && old(GateOpen(tiles[..], areMorphing, areBlobbing)) ==>
        && rotationMode == FloorRandom(u, 1, 6)
        && areRotating == RotatingAfter(rotationMode, old(areRotating))
        && tiles[..] == RotateAll(rotationMode, old(tiles[..]), coins)
        && nextRotationSwitch == FloorRandom(wait, 10, MaxSwitchTime) && rotationSwitchCounter == 0
      ensures !(Fires(old(rotationSwitchCounter), old(nextRotationSwitch)) && old(GateOpen(tiles[..], areMorphing, areBlobbing))) ==>
        && rotationMode == old(rotationMode) && areRotating == old(areRotating) && tiles[..] == old(tiles[..])
        && nextRotationSwitch == old(nextRotationSwitch) && rotationSwitchCounter == old(rotationSwitchCounter)
    {
      if rotationSwitchCounter > nextRotationSwitch * FramesPerSecond {
        var open := tiles[0].state == CircleState && !areMorphing && !areBlobbing;
        if open {
          open := AreShapesSettled(tiles);
        }
        if open {
          FireRotation(u, coins, wait);
        }
      }
    }

    /** The firing branch of the rotation switch: a random rotation mode,
        applied, then the next interval and a restarted counter. */
    method FireRotation(u: real, coins: seq<real>, wait: real)
      requires Valid() && IsUnit(u) && |coins| == tiles.Length && IsUnit(wait)
      modifies this`rotationMode, this`areRotating, tiles, this`nextRotationSwitch, this`rotationSwitchCounter
      ensures Valid()
      ensures rotationMode == FloorRandom(u, 1, 6) && areRotating == RotatingAfter(rotationMode, old(areRotating))
      ensures tiles[..] == RotateAll(rotationMode, old(tiles[..]), coins)
      ensures nextRotationSwitch == FloorRandom(wait, 10, MaxSwitchTime) && rotationSwitchCounter == 0
    {
      RandomRotationMode(u, coins);
      nextRotationSwitch := FloorRandom(wait, 10, MaxSwitchTime);
      rotationSwitchCounter := 0;
    }

    /** The reshuffle of `timedEvents`: once a second, when no tile overlapped
        in the last drawing pass. */
    method ShuffleEvent(frame: nat, us: seq<real>)
      requires Valid() && |us| == tiles.Length && AllUnit(us)
      modifies tiles
      ensures Valid()
      ensures frame % FramesPerSecond == 0 && !areOverlapping ==>
        tiles[..] == ShuffleDown(old(tiles[..]), us, tiles.Length - 1)
      ensures !(frame % FramesPerSecond == 0 && !areOverlapping) ==> tiles[..] == old(tiles[..])
    {
      if frame % FramesPerSecond == 0 && !areOverlapping {
        ShuffleTiles(us);
      }
    }

    /** The noise reset of `timedEvents`: every 30 seconds, but only while
        both brightness targets are 0, which the mode table gives exactly in
        the colourless modes 1 to 3. */
    method NoiseEvent(frame: nat)
      requires Valid()
      modifies tiles
      ensures Valid()
      ensures targets.strokeBrightness == 0 && targets.fillBrightness == 0 <==> mode <= 3
      ensures mode <= 3 && frame % NoiseResetFrames == 0 ==> tiles[..] == ResetAll(old(tiles[..]))
      ensures !(mode <= 3 && frame % NoiseResetFrames == 0) ==> tiles[..] == old(tiles[..])
    {
      if targets.strokeBrightness == 0 && targets.fillBrightness == 0 && frame % NoiseResetFrames == 0 {
        ResetNoise();
      }
    }

    /** The first step of `timedEvents`: every switch counter counts the frame. */
    method CountFrame()
      requires Valid()
      modifies this`modeSwitchCounter, this`shapeSwitchCounter, this`blobSwitchCounter, this`rotationSwitchCounter
      ensures Valid()
      ensures modeSwitchCounter == old(modeSwitchCounter) + 1 && shapeSwitchCounter == old(shapeSwitchCounter) + 1
      ensures blobSwitchCounter == old(blobSwitchCounter) + 1 && rotationSwitchCounter == old(rotationSwitchCounter) + 1
    {
      modeSwitchCounter := modeSwitchCounter + 1;
      shapeSwitchCounter := shapeSwitchCounter + 1;
      blobSwitchCounter := blobSwitchCounter + 1;
      rotationSwitchCounter := rotationSwitchCounter + 1;
    }

    /** The mode, shape and blob switches of `timedEvents`, in source
        order: each fires when its counter has run past its interval and
        restarts it. */
    method EarlySwitches(d: Draws)
      requires Valid() && d.Fits(tiles.Length)
      modifies tiles, this`mode, this`targets, this`nextModeSwitch, this`modeSwitchCounter
      modifies this`areMorphing, this`nextShapeSwitch, this`shapeSwitchCounter
      modifies this`blobMode, this`areBlobbing, this`nextBlobSwitch, this`blobSwitchCounter
      ensures Valid()
      ensures EarlySwitched(old(DueIn(0)), d)
      ensures tiles[..] == ShapedAndBlobbed(old(tiles[..]), old(DueIn(0)), blobMode, d.blobCoins)
      ensures modeSwitchCounter == (if old(DueIn(0)).mode then 0 else old(modeSwitchCounter))
      ensures shapeSwitchCounter == (if old(DueIn(0)).shape then 0 else old(shapeSwitchCounter))
      ensures blobSwitchCounter == (if old(DueIn(0)).blob then 0 else old(blobSwitchCounter))
    {
      ModeEvent(d.mode, d.modeWait);
      ShapeEvent(d.shapeWait);
      BlobEvent(d.blob, d.blobCoins, d.blobWait);
    }

    /** The four switches of `timedEvents`, in source order; the rotation
        switch fires only through its gate, tested on what the shape and
        blob switches left. */
    method SwitchEvents(d: Draws)
      requires Valid() && d.Fits(tiles.Length)
      modifies tiles, this`mode, this`targets, this`nextModeSwitch, this`modeSwitchCounter
      modifies this`areMorphing, this`nextShapeSwitch, this`shapeSwitchCounter
      modifies this`blobMode, this`areBlobbing, this`nextBlobSwitch, this`blobSwitchCounter
      modifies this`rotationMode, this`areRotating, this`nextRotationSwitch, this`rotationSwitchCounter
      ensures Valid()
      ensures EarlySwitched(old(DueIn(0)), d)
      ensures RotationSwitched(RotationFires(old(tiles[..]), old(DueIn(0)), blobMode, d, areMorphing, areBlobbing), d)
      ensures tiles[..] == SwitchedTiles(old(tiles[..]), old(DueIn(0)), blobMode, rotationMode, d, areMorphing, areBlobbing)
      ensures modeSwitchCounter == (if old(DueIn(0)).mode then 0 else old(modeSwitchCounter))
      ensures shapeSwitchCounter == (if old(DueIn(0)).shape then 0 else old(shapeSwitchCounter))
      ensures blobSwitchCounter == (if old(DueIn(0)).blob then 0 else old(blobSwitchCounter))
      ensures rotationSwitchCounter ==
        (if RotationFires(old(tiles[..]), old(DueIn(0)), blobMode, d, areMorphing, areBlobbing) then 0
         else old(rotationSwitchCounter))
    {
      EarlySwitches(d);
      RotationEvent(d.rotation, d.rotationCoins, d.rotationWait);
    }

    /** The last two steps of `timedEvents`: the once-a-second reshuffle,
        then the noise reset. */
    method ListEvents(frame: nat, us: seq<real>)
      requires Valid() && |us| == tiles.Length && AllUnit(us)
      modifies tiles
      ensures Valid()
      ensures var shuffled := if frame % FramesPerSecond == 0 && !areOverlapping
                              then ShuffleDown(old(tiles[..]), us, tiles.Length - 1) else old(tiles[..]);
        tiles[..] == if mode <= 3 && frame % NoiseResetFrames == 0 then ResetAll(shuffled) else shuffled
    {
      ShuffleEvent(frame, us);
      NoiseEvent(frame);
    }

    /** `timedEvents`: every counter counts the frame, the four switches run,
        then the once-a-second reshuffle and the noise reset. */
    method TimedEvents(frame: nat, d: Draws)
      requires Valid() && d.Fits(tiles.Length)
      modifies tiles, this`mode, this`targets, this`nextModeSwitch, this`modeSwitchCounter
      modifies this`areMorphing, this`nextShapeSwitch, this`shapeSwitchCounter
      modifies this`blobMode, this`areBlobbing, this`nextBlobSwitch, this`blobSwitchCounter
      modifies this`rotationMode, this`areRotating, this`nextRotationSwitch, this`rotationSwitchCounter
      ensures Valid()
      ensures EarlySwitched(old(DueIn(1)), d)
      ensures RotationSwitched(RotationFires(old(tiles[..]), old(DueIn(1)), blobMode, d, areMorphing, areBlobbing), d)
      ensures var switched := SwitchedTiles(old(tiles[..]), old(DueIn(1)), blobMode, rotationMode, d, areMorphing, areBlobbing);
        var shuffled := if frame % FramesPerSecond == 0 && !areOverlapping
                        then ShuffleDown(switched, d.shuffle, tiles.Length - 1) else switched;
        tiles[..] == if mode <= 3 && frame % NoiseResetFrames == 0 then ResetAll(shuffled) else shuffled
      ensures modeSwitchCounter == SwitchCount(old(modeSwitchCounter), old(nextModeSwitch))
      ensures shapeSwitchCounter == SwitchCount(old(shapeSwitchCounter), old(nextShapeSwitch))
      ensures blobSwitchCounter == SwitchCount(old(blobSwitchCounter), old(nextBlobSwitch))
      ensures rotationSwitchCounter ==
        (if RotationFires(old(tiles[..]), old(DueIn(1)), blobMode, d, areMorphing, areBlobbing) then 0
         else old(rotationSwitchCounter) + 1)
    {
      CountFrame();
      ghost var due := DueIn(0);
      assert due == old(DueIn(1));
      SwitchEvents(d);
      ghost var switched := tiles[..];
      assert switched == SwitchedTiles(old(tiles[..]), due, blobMode, rotationMode, d, areMorphing, areBlobbing);
      ListEvents(frame, d.shuffle);
    }

    /** `drawTiles`: each tile's `compute` steps its hue and saturation
        noise and `drawShape` moves its morph ring (to the ring the pass
        gives); `areOverlapping` starts the pass cleared and is set once a
        drawn tile shows a square or reached full scale. */
    method DrawTiles(p: Pass)
      requires Valid() && p.Fits(tiles.Length)
      modifies tiles, this`areOverlapping
      ensures Valid()
      ensures tiles[..] == DrawAll(old(tiles[..]), p)
      ensures areOverlapping == Overlapping(tiles[..], p)
      ensures unchanged(this`morphCounter, this`areMorphing, this`colors, this`lerpCount, this`targets)
    {
      areOverlapping := DrawEach(p);
      assert tiles[..] == DrawAll(old(tiles[..]), p);
      OverlapsBeforeExists(old(tiles[..]), p.scaled, tiles.Length);
      DrawKeepsOverlapping(old(tiles[..]), p);
    }

    /** The loop of `drawTiles`. Nothing reads `areOverlapping` during the
        pass, so the loop accumulates it in `overlapping`. */
    method DrawEach(p: Pass) returns (overlapping: bool)
      requires p.Fits(tiles.Length)
      modifies tiles
      ensures forall k :: 0 <= k < tiles.Length ==>
        tiles[k] == DrawnTile(old(tiles[k]), p.rings[k], p.hueDraws[k], p.satDraws[k])
      ensures overlapping == OverlapsBefore(old(tiles[..]), p.scaled, tiles.Length)
    {
      overlapping := false;
      var i := 0;
      while i < tiles.Length
        invariant 0 <= i <= tiles.Length
        invariant forall k :: 0 <= k < i ==> tiles[k] == DrawnTile(old(tiles[k]), p.rings[k], p.hueDraws[k], p.satDraws[k])
        invariant forall k :: i <= k < tiles.Length ==> tiles[k] == old(tiles[k])
        invariant overlapping == OverlapsBefore(old(tiles[..]), p.scaled, i)
      {
        tiles[i] := DrawnTile(tiles[i], p.rings[i], p.hueDraws[i], p.satDraws[i]);
        if (p.scaled[i] || tiles[i].state == RectState) && !overlapping {
          overlapping := true;
        }
        i := i + 1;
      }
    }

    /** The two per-frame steps of `draw` between the timed events and the
        drawing pass: the morph clock ticks, and the colours take one
        interpolation step toward the targets. */
    method Animate()
      requires Valid()
      modifies this`morphCounter, this`areMorphing, this`colors, this`lerpCount
      ensures Valid()
      ensures Morph(morphCounter, areMorphing) == MorphTick(Morph(old(morphCounter), old(areMorphing)))
      ensures LerpFrame(colors, lerpCount) == LerpColors(old(colors), targets, old(lerpCount))
    {
      IncMorphCounter();
      ComputeLerping();
    }

    /** The state-changing part of `draw`: timed events, the morph clock,
        colour interpolation toward the (possibly new) targets, and the
        drawing pass. The colours take one interpolation step toward the
        targets the timed events left, and the morph clock ticks from the
        morphing flag the shape switch left. */
    method Frame(frame: nat, d: Draws, p: Pass)
      requires Valid() && d.Fits(tiles.Length) && p.Fits(tiles.Length)
      modifies tiles, this`mode, this`targets, this`nextModeSwitch, this`modeSwitchCounter
      modifies this`areMorphing, this`nextShapeSwitch, this`shapeSwitchCounter
      modifies this`blobMode, this`areBlobbing, this`nextBlobSwitch, this`blobSwitchCounter
      modifies this`rotationMode, this`areRotating, this`nextRotationSwitch, this`rotationSwitchCounter
      modifies this`morphCounter, this`colors, this`lerpCount, this`areOverlapping
      ensures Valid()
      ensures areOverlapping == Overlapping(tiles[..], p)
      ensures LerpFrame(colors, lerpCount) == LerpColors(old(colors), targets, old(lerpCount))
      ensures Morph(morphCounter, areMorphing) ==
        MorphTick(Morph(old(morphCounter), old(areMorphing) || old(DueIn(1)).shape))
    {
      ghost var before := Morph(morphCounter, areMorphing || DueIn(1).shape);
      ghost var c0, l0 := colors, lerpCount;
      TimedEvents(frame, d);
      assert Morph(morphCounter, areMorphing) == before;
      assert colors == c0 && lerpCount == l0;
      Animate();
      ghost var clock, lerped := Morph(morphCounter, areMorphing), LerpFrame(colors, lerpCount);
      DrawTiles(p);
      assert Morph(morphCounter, areMorphing) == clock && LerpFrame(colors, lerpCount) == lerped;
    }

    /** `keyPressed`, without the debug, fullscreen and screenshot keys.
        Each branch condition is evaluated in turn; `key` is the character typed and
        `keyCode` the code of the key (81 q, 87 w, 69 e, 82 r, 84 t, 90 z,
        78 n, 65 a, 83 s). */
    method KeyPressed(key: char, keyCode: int, d: Draws)
      requires Valid() && d.Fits(tiles.Length)
      modifies this, tiles
      ensures Valid()
    {
      ShapeKeys(key);
      ModeKeys(keyCode, d);
      RotationKeys(keyCode, d);
      BlobKeys(keyCode, d);
      ListKeys(keyCode, d);
    }

    /** Keys '1' and '2': every tile to circles, or to squares, with every
        other field kept; any other key leaves the tiles alone. */
    method ShapeKeys(key: char)
      requires Valid()
      modifies tiles
      ensures Valid()
      ensures key == '1' ==> forall k :: 0 <= k < tiles.Length ==> tiles[k] == old(tiles[k]).(state := CircleState)
      ensures key == '2' ==> forall k :: 0 <= k < tiles.Length ==> tiles[k] == old(tiles[k]).(state := RectState)
      ensures key != '1' && key != '2' ==> tiles[..] == old(tiles[..])
    {
      if key == '1' {
        ForceShape(CircleState);
      }
      if key == '2' {
        ForceShape(RectState);
      }
    }

    /** Keys q and w: cycle or randomise the mode, and apply it; any other
        key leaves the mode and the targets alone. */
    method ModeKeys(keyCode: int, d: Draws)
      requires Valid() && d.Fits(tiles.Length)
      modifies this`mode, this`targets
      ensures Valid()
      ensures keyCode == 81 ==> mode == NextModeId(old(mode)) && targets == ModeTable(mode, old(targets))
      ensures keyCode == 87 ==> mode == FloorRandom(d.mode, 1, 11) && targets == ModeTable(mode, old(targets))
      ensures keyCode != 81 && keyCode != 87 ==> mode == old(mode) && targets == old(targets)
    {
      if keyCode == 81 {
        NextMode();
      }
      if keyCode == 87 {
        RandomMode(d.mode);
      }
    }

    /** Keys e and r: cycle or randomise the rotation mode, and apply it to
        every tile; any other key changes neither the rotation nor the tiles. */
    method RotationKeys(keyCode: int, d: Draws)
      requires Valid() && d.Fits(tiles.Length)
      modifies tiles, this`rotationMode, this`areRotating
      ensures Valid()
      ensures keyCode == 69 ==> rotationMode == NextRotationId(old(rotationMode))
      ensures keyCode == 82 ==> rotationMode == FloorRandom(d.rotation, 1, 6)
      ensures keyCode == 69 || keyCode == 82 ==>
        && areRotating == RotatingAfter(rotationMode, old(areRotating))
        && tiles[..] == RotateAll(rotationMode, old(tiles[..]), d.rotationCoins)
      ensures keyCode != 69 && keyCode != 82 ==>
        rotationMode == old(rotationMode) && areRotating == old(areRotating) && tiles[..] == old(tiles[..])
    {
      if keyCode == 69 {
        NextRotationMode(d.rotationCoins);
      }
      if keyCode == 82 {
        RandomRotationMode(d.rotation, d.rotationCoins);
      }
    }

    /** Keys t and z: cycle or randomise the blob mode, and apply it to
        every tile; any other key changes neither the blob mode nor the tiles. */
    method BlobKeys(keyCode: int, d: Draws)
      requires Valid() && d.Fits(tiles.Length)
      modifies tiles, this`blobMode, this`areBlobbing
      ensures Valid()
      ensures keyCode == 84 ==> blobMode == NextBlobId(old(blobMode))
      ensures keyCode == 90 ==> blobMode == RandomBlobId(old(blobMode), d.blob)
      ensures keyCode == 84 || keyCode == 90 ==>
        && areBlobbing == BlobbingAfter(blobMode, old(areBlobbing))
        && tiles[..] == BlobAll(blobMode, old(tiles[..]), d.blobCoins)
      ensures keyCode != 84 && keyCode != 90 ==>
        blobMode == old(blobMode) && areBlobbing == old(areBlobbing) && tiles[..] == old(tiles[..])
    {
      if keyCode == 84 {
        NextBlobMode(d.blobCoins);
      }
      if keyCode == 90 {
        RandomBlobMode(d.blob, d.blobCoins);
      }
    }

    /** Keys n, a, s: reset the noise, order the tile list by index,
        shuffle it; any other key leaves the list alone. */
    method ListKeys(keyCode: int, d: Draws)
      requires Valid() && d.Fits(tiles.Length)
      modifies tiles
      ensures Valid()
      ensures keyCode == 78 ==> tiles[..] == ResetAll(old(tiles[..]))
      ensures keyCode == 65 ==> forall k :: 0 <= k < tiles.Length ==> tiles[k].index == k
      ensures keyCode == 65 ==> forall m :: 0 <= m < tiles.Length ==> tiles[old(tiles[m]).index] == old(tiles[m])
      ensures keyCode == 83 ==> tiles[..] == ShuffleDown(old(tiles[..]), d.shuffle, tiles.Length - 1)
      ensures keyCode != 78 && keyCode != 65 && keyCode != 83 ==> tiles[..] == old(tiles[..])
    {
      if keyCode == 78 {
        ResetNoise();
      }
      if keyCode == 65 {
        OrderTiles();
      }
      if keyCode == 83 {
        ShuffleTiles(d.shuffle);
      }
    }
  }
}
