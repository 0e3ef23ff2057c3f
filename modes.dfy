/** The mode table and the cyclers that keep the mode ids of the sketch in
    range: the colour mode (1..10), the rotation mode (1..5) and the blob
    mode (1..3, starting from 0 before the first switch). */
module Modes {
  import opened P5Math
  import opened Lerping

  /** The targets a colour mode may set: background 0 or 360, every alpha
      and brightness 0, 50 or 100. */
  predicate TargetsInRange(t: Palette) {
    && (t.bg == 0 || t.bg == 360)
    && (t.fillAlpha == 0 || t.fillAlpha == 50 || t.fillAlpha == 100)
    && (t.fillBrightness == 0 || t.fillBrightness == 50 || t.fillBrightness == 100)
    && (t.strokeAlpha == 0 || t.strokeAlpha == 50 || t.strokeAlpha == 100)
    && (t.strokeBrightness == 0 || t.strokeBrightness == 50 || t.strokeBrightness == 100)
  }

  /** `applyMode`: the five colour targets of each of the ten modes. A mode
      outside 1..10 matches no case of the switch and leaves the targets as
      they were. Modes 1-4 have a white background, 5-10 a black one, and
      only modes 1-3 have neither fill nor stroke brightness (the colourless
      modes in which the noise reset may fire). */
  function ModeTable(mode: int, current: Palette): (t: Palette)
    ensures 1 <= mode <= 10 ==> TargetsInRange(t) && InRanges(t)
    ensures 1 <= mode <= 4 ==> t.bg == 360
    ensures 5 <= mode <= 10 ==> t.bg == 0
    ensures 1 <= mode <= 10 ==> (t.fillBrightness == 0 && t.strokeBrightness == 0 <==> mode <= 3)
    ensures !(1 <= mode <= 10) ==> t == current
  {
    match mode
    //                   bg   fillA fillB strokeA strokeB
    case 1 =>  Palette(360,   0,    0,   100,      0)
    case 2 =>  Palette(360,   0,    0,    50,      0)
    case 3 =>  Palette(360,  50,    0,     0,      0)
    case 4 =>  Palette(360,  50,  100,     0,      0)
    case 5 =>  Palette(  0,   0,    0,   100,    100)
    case 6 =>  Palette(  0, 100,  100,   100,      0)
    case 7 =>  Palette(  0, 100,  100,     0,    100)
    case 8 =>  Palette(  0,  50,  100,     0,    100)
    case 9 =>  Palette(  0,   0,  100,    50,    100)
    case 10 => Palette(  0,  50,  100,   100,      0)
    case _ =>  current
  }

  /** `nextMode`: one step round the cycle 1, 2, ..., 10, 1. */
  function NextModeId(mode: int): (r: int)
    ensures 0 <= mode <= 10 ==> r == mode % 10 + 1
    ensures 0 <= mode ==> 1 <= r <= 10
  {
    if mode < 10 then mode + 1 else 1
  }

  /** `nextRotationMode`: one step round the cycle 1, 2, ..., 5, 1. */
  function NextRotationId(rotationMode: int): (r: int)
    ensures 0 <= rotationMode <= 5 ==> r == rotationMode % 5 + 1
    ensures 0 <= rotationMode ==> 1 <= r <= 5
  {
    if rotationMode < 5 then rotationMode + 1 else 1
  }

  /** `nextBlobMode`: one step round the cycle 1, 2, 3, 1; the initial 0
      goes to 1. */
  function NextBlobId(blobMode: int): (r: int)
    ensures 0 <= blobMode <= 3 ==> r == blobMode % 3 + 1
    ensures 0 <= blobMode ==> 1 <= r <= 3
  {
    if blobMode < 3 then blobMode + 1 else 1
  }

  /** `randomBlobMode` for a draw `u`: any mode other than 1 (no blobbing)
      is followed by 1; from 1 the next mode is drawn from 1..3. */
  function RandomBlobId(blobMode: int, u: real): (r: int)
    requires IsUnit(u)
    ensures blobMode != 1 ==> r == 1
    ensures 1 <= r <= 3
  {
    if blobMode != 1 then 1 else FloorRandom(u, 1, 4)
  }

  /** The blob modes produced by successive firings of `randomBlobMode`,
      starting from `blobMode`, one draw per firing. */
  function BlobRun(blobMode: int, us: seq<real>): (run: seq<int>)
    requires AllUnit(us)
    ensures |run| == |us|
    ensures forall i :: 0 <= i < |run| ==> 1 <= run[i] <= 3
    decreases |us|
  {
    if us == [] then []
    else
      var next := RandomBlobId(blobMode, us[0]);
      [next] + BlobRun(next, us[1..])
  }

  /** How many entries of a run are the no-blobbing mode 1. */
  function NoBlobCount(run: seq<int>): nat {
    if run == [] then 0
    else (if run[0] == 1 then 1 else 0) + NoBlobCount(run[1..])
  }

  /** Two consecutive firings never both turn blobbing on, and the first
      firing from any mode other than 1 (the initial 0 included) turns it off. */
  lemma {:induction false} NeverBlobTwiceInARow(blobMode: int, us: seq<real>, i: int)
    requires AllUnit(us)
    requires 0 <= i < |us|
    requires (if i == 0 then blobMode else BlobRun(blobMode, us)[i - 1]) != 1
    ensures BlobRun(blobMode, us)[i] == 1
    decreases i
  {
    var next := RandomBlobId(blobMode, us[0]);
    assert BlobRun(blobMode, us) == [next] + BlobRun(next, us[1..]);
    if i > 0 {
      NeverBlobTwiceInARow(next, us[1..], i - 1);
    }
  }

  /** Over any number of firings, the no-blobbing mode is chosen at least
      half of the time, rounding in its favour when the run starts from a
      mode other than 1 (as the sketch does, from 0). */
  lemma {:induction false} NoBlobAtLeastHalf(blobMode: int, us: seq<real>)
    requires AllUnit(us)
    ensures 2 * NoBlobCount(BlobRun(blobMode, us)) >= |us| - (if blobMode == 1 then 1 else 0)
    decreases |us|
  {
    if us != [] {
      var next := RandomBlobId(blobMode, us[0]);
      var run := BlobRun(blobMode, us);
      assert run == [next] + BlobRun(next, us[1..]);
      assert run[1..] == BlobRun(next, us[1..]);
      NoBlobAtLeastHalf(next, us[1..]);
    }
  }
}
