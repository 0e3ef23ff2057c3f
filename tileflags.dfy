/** What the batch updates of the sketch do to a single tile: the rotation
    and blob flags the mode appliers set, the shape flip of `switchShapes`,
    and the free-running morph clock of `incMorphCounter`. */
module TileFlags {
  import opened P5Math
  import opened Tiles
  import opened Grid

  /** Frames the morph clock counts before it wraps (`morphTime`). */
  const MorphTime := 180

  /** `b` differs from `a` at most in its rotation flags. */
  predicate OnlyRotationChanged(a: Tile, b: Tile) {
    b == a.(isRotating := b.isRotating, rotatingRight := b.rotatingRight)
  }

  /** `b` differs from `a` at most in its blob flag. */
  predicate OnlyBlobChanged(a: Tile, b: Tile) {
    b == a.(isBlobbing := b.isBlobbing)
  }

  /** `applyRotationMode`'s effect on one tile; `coin` is the draw behind
      `random(2) < 1` in mode 5 (`random(2)` is `2 * coin`). The result
      carries the flags the mode promises and nothing else changes; an
      unknown mode leaves the tile alone. */
  function RotatedTile(rotationMode: int, t: Tile, coin: real): (r: Tile)
    ensures 1 <= rotationMode <= 5 ==> RotationAgrees(rotationMode, r)
    ensures OnlyRotationChanged(t, r)
    ensures rotationMode == 5 ==> (r.rotatingRight <==> coin >= 0.5)
    ensures rotationMode == 1 || rotationMode == 2 ==> r.rotatingRight == t.rotatingRight
    ensures !(1 <= rotationMode <= 5) ==> r == t
  {
    match rotationMode
    case 1 => t.(isRotating := false)
    case 2 => t.(isRotating := true)
    case 3 => t.(isRotating := false, rotatingRight := true)
    case 4 => t.(isRotating := false, rotatingRight := false)
    case 5 => t.(isRotating := false, rotatingRight := !(2.0 * coin < 1.0))
    case _ => t
  }

  /** `areRotating` after `applyRotationMode`: only the global modes 3 to 5 rotate globally. */
  function RotatingAfter(rotationMode: int, areRotating: bool): (r: bool)
    ensures 1 <= rotationMode <= 5 ==> (r <==> rotationMode >= 3)
    ensures !(1 <= rotationMode <= 5) ==> r == areRotating
  {
    match rotationMode
    case 1 => false
    case 2 => false
    case 3 => true
    case 4 => true
    case 5 => true
    case _ => areRotating
  }

  /** `applyBlobMode`'s effect on one tile; in mode 2 the tile blobs when
      `floor(random(2))` (that is, `floor(2 * coin)`) is not below 1. */
  function BlobbedTile(blobMode: int, t: Tile, coin: real): (r: Tile)
    requires IsUnit(coin)
    ensures 1 <= blobMode <= 3 ==> BlobAgrees(blobMode, r)
    ensures OnlyBlobChanged(t, r)
    ensures blobMode == 2 ==> (r.isBlobbing <==> coin >= 0.5)
    ensures !(1 <= blobMode <= 3) ==> r == t
  {
    match blobMode
    case 1 => t.(isBlobbing := false)
    case 2 => t.(isBlobbing := !(FloorRandom(coin, 0, 2) < 1))
    case 3 => t.(isBlobbing := true)
    case _ => t
  }

  /** `areBlobbing` after `applyBlobMode`. */
  function BlobbingAfter(blobMode: int, areBlobbing: bool): (r: bool)
    ensures 1 <= blobMode <= 3 ==> (r <==> blobMode >= 2)
    ensures !(1 <= blobMode <= 3) ==> r == areBlobbing
  {
    match blobMode
    case 1 => false
    case 2 => true
    case 3 => true
    case _ => areBlobbing
  }

  /** `switchShapes`' effect on one tile: a well-formed tile swaps circle
      and rectangle and keeps everything else. */
  function FlippedTile(t: Tile): (r: Tile)
    ensures WellFormed(t) ==> WellFormed(r) && r.state == 1 - t.state
    ensures r == t.(state := r.state)
  {
    t.(state := FlipState(t.state))
  }

  /** Switching shapes twice restores every well-formed tile. */
  lemma FlipTwice(t: Tile)
    requires WellFormed(t)
    ensures FlippedTile(FlippedTile(t)) == t
  {
  }

  /** Setting every tile of a valid grid to one shape state keeps it valid. */
  lemma ForceKeepsGrid(a: seq<Tile>, b: seq<Tile>, state: int)
    requires GridShapeOk(a) && (state == CircleState || state == RectState)
    requires |b| == |a| && forall k :: 0 <= k < |a| ==> b[k] == a[k].(state := state)
    ensures GridShapeOk(b) && AllInState(b, state)
  {
    SameIndicesKeepPerm(a, b);
  }

  /** `applyRotationMode`'s loop over the whole list, one coin per tile.
      The list keeps its tiles, shapes and rings, every tile then carries
      the flags a known rotation mode promises, and the blob flags stay. */
  function RotateAll(rotationMode: int, s: seq<Tile>, coins: seq<real>): (r: seq<Tile>)
    requires |coins| == |s|
    ensures |r| == |s| && forall k :: 0 <= k < |s| ==> r[k] == RotatedTile(rotationMode, s[k], coins[k])
    ensures SameGeometry(s, r)
    ensures 1 <= rotationMode <= 5 ==> forall k :: 0 <= k < |r| ==> RotationAgrees(rotationMode, r[k])
    ensures forall k :: 0 <= k < |r| ==> r[k].isBlobbing == s[k].isBlobbing
  {
    seq(|s|, k requires 0 <= k < |s| => RotatedTile(rotationMode, s[k], coins[k]))
  }

  /** `applyBlobMode`'s loop over the whole list, one coin per tile. The
      list keeps its tiles, shapes and rings, every tile then carries the
      flag a known blob mode promises, and the rotation flags stay. */
  function BlobAll(blobMode: int, s: seq<Tile>, coins: seq<real>): (r: seq<Tile>)
    requires |coins| == |s| && AllUnit(coins)
    ensures |r| == |s| && forall k :: 0 <= k < |s| ==> r[k] == BlobbedTile(blobMode, s[k], coins[k])
    ensures SameGeometry(s, r)
    ensures 1 <= blobMode <= 3 ==> forall k :: 0 <= k < |r| ==> BlobAgrees(blobMode, r[k])
    ensures forall k :: 0 <= k < |r| ==>
      r[k].isRotating == s[k].isRotating && r[k].rotatingRight == s[k].rotatingRight
  {
    seq(|s|, k requires 0 <= k < |s| => BlobbedTile(blobMode, s[k], coins[k]))
  }

  /** The rotation and blob appliers leave every tile's shape state alone. */
  lemma FlagsKeepState(s: seq<Tile>, rotationMode: int, rotationCoins: seq<real>, blobMode: int, blobCoins: seq<real>, state: int)
    requires AllInState(s, state) && |rotationCoins| == |s| && |blobCoins| == |s| && AllUnit(blobCoins)
    ensures AllInState(BlobAll(blobMode, RotateAll(rotationMode, s, rotationCoins), blobCoins), state)
  {
  }

  /** `switchShapes`' loop over the whole list: a valid grid stays valid
      and all of it shows the other shape. */
  function FlipAll(s: seq<Tile>): (r: seq<Tile>)
    ensures |r| == |s| && forall k :: 0 <= k < |s| ==> r[k] == FlippedTile(s[k])
    ensures GridShapeOk(s) ==> GridShapeOk(r) && AllInState(r, 1 - s[0].state)
  {
    var r := seq(|s|, k requires 0 <= k < |s| => FlippedTile(s[k]));
    SameIndicesKeepPerm(s, r);
    r
  }

  /** `resetNoise`' loop over the whole list: the hue and saturation noise
      phases back to 0; tiles, shapes and rings stay, so a valid grid stays
      valid. */
  function ResetAll(s: seq<Tile>): (r: seq<Tile>)
    ensures |r| == |s| && forall k :: 0 <= k < |s| ==> r[k] == s[k].(hT := 0.0, sT := 0.0)
    ensures SameGeometry(s, r)
    ensures GridShapeOk(s) ==> GridShapeOk(r)
  {
    var r := seq(|s|, k requires 0 <= k < |s| => s[k].(hT := 0.0, sT := 0.0));
    SameIndicesKeepPerm(s, r);
    r
  }

  /** The noise-phase step of a tile's `compute`, `Math.random() * (.005 -
      .0005) + .0005` for a draw `u` in [0, 1): always at least .0005 and
      below .005. */
  function NoiseStep(u: real): (r: real)
    requires IsUnit(u)
    ensures 0.0005 <= r < 0.005
  {
    ScaleBelow(u, 0.0045);
    u * (0.005 - 0.0005) + 0.0005
  }

  /** What a tile's `draw` leaves behind that the control layer reads: the
      hue and saturation phases advance by one noise step each, and the
      morph ring becomes `ring`, the ring `drawShape` has moved toward the
      target (its floating-point motion is not modelled, so the ring is an
      input). Nothing else changes, and a well-formed tile given a
      40-vertex ring stays well formed. */
  function DrawnTile(t: Tile, ring: seq<Point>, hu: real, su: real): (r: Tile)
    requires IsUnit(hu) && IsUnit(su)
    ensures r == t.(morph := ring, hT := r.hT, sT := r.sT)
    ensures t.hT + 0.0005 <= r.hT < t.hT + 0.005 && t.sT + 0.0005 <= r.sT < t.sT + 0.005
    ensures WellFormed(t) && |ring| == RingSize ==> WellFormed(r)
  {
    t.(morph := ring, hT := t.hT + NoiseStep(hu), sT := t.sT + NoiseStep(su))
  }

  /** The morph clock: `morphCounter` and `areMorphing`. */
  datatype Morph = Morph(counter: int, morphing: bool)

  /** `incMorphCounter`: count one frame; past `morphTime` the counter wraps
      to 0 and the morphing flag clears. The counter stays within
      0 .. morphTime, and it is 0 afterwards exactly when it wrapped. */
  function MorphTick(m: Morph): (r: Morph)
    ensures 0 <= m.counter <= MorphTime ==> 0 <= r.counter <= MorphTime
    ensures 0 <= m.counter ==> (r.counter == 0 <==> m.counter >= MorphTime)
    ensures r.morphing ==> m.morphing
  {
    var c := m.counter + 1;
    if c > MorphTime then Morph(0, false) else Morph(c, m.morphing)
  }

  /** `k` frames of the morph clock. */
  function MorphTicks(m: Morph, k: nat): Morph
    decreases k
  {
    if k == 0 then m else MorphTicks(MorphTick(m), k - 1)
  }

  /** The morph clock is free-running modulo morphTime + 1, and the morphing
      flag survives exactly until the next wrap: `switchShapes` sets the flag
      without resetting the counter, so the flag clears 1 to morphTime + 1
      frames after a switch, depending on where the clock stood. */
  lemma {:induction false} MorphWindow(m: Morph, k: nat)
    requires 0 <= m.counter <= MorphTime
    ensures MorphTicks(m, k).counter == (m.counter + k) % (MorphTime + 1)
    ensures MorphTicks(m, k).morphing == (m.morphing && k <= MorphTime - m.counter)
    decreases k
  {
    if k > 0 {
      var n := MorphTick(m);
      MorphWindow(n, k - 1);
      if m.counter == MorphTime {
        assert n.counter == 0;
        assert (m.counter + k) % (MorphTime + 1) == (k - 1) % (MorphTime + 1) by {
          ModShift(k - 1);
        }
      } else {
        assert n.counter == m.counter + 1;
      }
    }
  }

  lemma ModShift(j: int)
    requires 0 <= j
    ensures (MorphTime + 1 + j) % (MorphTime + 1) == j % (MorphTime + 1)
  {
  }
}
