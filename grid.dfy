/** The grid of tiles: building it (`pushTiles`), the Durstenfeld shuffle
    of the draw order, restoring the order by tile index, and the
    settlement check that gates rotation-mode switches. */
module Grid {
  import opened P5Math
  import opened Tiles

  /** Canvas and grid dimensions: an 800 x 800 canvas, 16 tiles per row. */
  const LimitedWidth := 800
  const LimitedHeight := 800
  const TilesPerRow := 16
  const TileEdge := LimitedWidth / TilesPerRow
  const TileSize: real := TileEdge as real
  /** `width / tileSize` and `height / tileSize`; the grid adds one tile of
      overlap margin on every side. */
  const Across := LimitedWidth / TileEdge
  const Down := LimitedHeight / TileEdge
  const GridCount := (Across + 2) * (Down + 2)

  predicate AllWellFormed(s: seq<Tile>) {
    forall k :: 0 <= k < |s| ==> WellFormed(s[k])
  }

  predicate AllInState(s: seq<Tile>, state: int) {
    forall k :: 0 <= k < |s| ==> s[k].state == state
  }

  predicate HasIndex(s: seq<Tile>, v: int) {
    exists k :: 0 <= k < |s| && s[k].index == v
  }

  /** The index of the k-th tile. */
  function IndexAt(s: seq<Tile>, k: int): int
    requires 0 <= k < |s|
  {
    s[k].index
  }

  /** The tiles' `index` fields are a permutation of 0 .. |s|-1. */
  predicate IndexPerm(s: seq<Tile>) {
    && (forall k :: 0 <= k < |s| ==> 0 <= s[k].index < |s|)
    && (forall k, m :: 0 <= k < m < |s| ==> IndexAt(s, k) != IndexAt(s, m))
    && (forall v :: 0 <= v < |s| ==> HasIndex(s, v))
  }

  /** The grid invariant: a non-empty list of well-formed tiles, all in the
      same shape state, carrying the indices 0 .. n-1 in some order. */
  predicate GridShapeOk(s: seq<Tile>) {
    |s| > 0 && AllWellFormed(s) && AllInState(s, s[0].state) && IndexPerm(s)
  }

  /** Lists with the same index at every position: the index permutation
      carries over. */
  lemma SameIndicesKeepPerm(a: seq<Tile>, b: seq<Tile>)
    requires |a| == |b| && forall k :: 0 <= k < |a| ==> a[k].index == b[k].index
    ensures IndexPerm(a) ==> IndexPerm(b)
  {
    if IndexPerm(a) {
      forall v | 0 <= v < |b| ensures HasIndex(b, v) {
        assert HasIndex(a, v);
      }
      forall k, m | 0 <= k < m < |b| ensures IndexAt(b, k) != IndexAt(b, m) {
        assert IndexAt(a, k) != IndexAt(a, m);
      }
    }
  }

  /** Two lists that agree on every tile's identity, shape state and rings. */
  predicate SameGeometry(a: seq<Tile>, b: seq<Tile>) {
    && |a| == |b|
    && forall k :: 0 <= k < |a| ==>
         && a[k].index == b[k].index && a[k].state == b[k].state
         && a[k].circle == b[k].circle && a[k].rect == b[k].rect && a[k].morph == b[k].morph
  }

  /** Column and row (each from -1) of the k-th tile pushed. */
  function Column(k: int): int { k / (Down + 2) - 1 }
  function Row(k: int): int { k % (Down + 2) - 1 }

  /** A tile as `pushTiles` creates it at push position `k`: indexed by
      `k`, placed at its column and row, in the rectangle state, with every
      flag off and no noise. */
  predicate Pristine(t: Tile, k: int) {
    && t.index == k && WellFormed(t) && t.state == RectState
    && t.size == TileSize && t.x == Column(k) as real * TileSize && t.y == Row(k) as real * TileSize
    && !t.isRotating && !t.rotatingRight && !t.isBlobbing && t.hT == 0.0 && t.sT == 0.0
  }

  /** The list `pushTiles` builds: tile k is the pristine tile of push position k. */
  predicate PushOrder(s: seq<Tile>) {
    |s| == GridCount && forall k {:trigger Pristine(s[k], k)} :: 0 <= k < |s| ==> Pristine(s[k], k)
  }

  lemma GridPosition(i: int, j: int)
    requires -1 <= j <= Down
    ensures Column((i + 1) * (Down + 2) + j + 1) == i
    ensures Row((i + 1) * (Down + 2) + j + 1) == j
  {
    assert Down + 2 == 18;
    var k := (i + 1) * 18 + j + 1;
    assert k / 18 == i + 1 && k % 18 == j + 1;
  }

  /** `pushTiles`' nested loops: columns -1 .. Across, rows -1 .. Down, each
      tile at (i * tileSize, j * tileSize) and indexed by its push order. */
  method BuildTiles(fromAngle: int -> Point) returns (s: seq<Tile>)
    ensures |s| == GridCount
    ensures forall k :: 0 <= k < |s| ==> Pristine(s[k], k)
    ensures forall k :: 0 <= k < |s| ==> -1 <= Column(k) <= Across && -1 <= Row(k) <= Down
  {
    s := [];
    var i := -1;
    while i < Across + 1
      invariant -1 <= i <= Across + 1
      invariant |s| == (i + 1) * (Down + 2)
      invariant forall k :: 0 <= k < |s| ==> Pristine(s[k], k)
    {
      var j := -1;
      while j < Down + 1
        invariant -1 <= j <= Down + 1
        invariant |s| == (i + 1) * (Down + 2) + j + 1
        invariant forall k :: 0 <= k < |s| ==> Pristine(s[k], k)
      {
        GridPosition(i, j);
        var t := NewTile(TileSize, i as real * TileSize, j as real * TileSize, |s|, fromAngle);
        s := s + [t];
        j := j + 1;
      }
      i := i + 1;
    }
  }

  function Swap<T>(s: seq<T>, i: int, j: int): (r: seq<T>)
    requires 0 <= i < |s| && 0 <= j < |s|
    ensures |r| == |s|
  {
    s[i := s[j]][j := s[i]]
  }

  lemma SwapPermutes<T>(s: seq<T>, i: int, j: int)
    requires 0 <= i < |s| && 0 <= j < |s|
    ensures multiset(Swap(s, i, j)) == multiset(s)
  {
  }

  /** The Durstenfeld shuffle from position `i` down to 1: position `i` is
      swapped with `floor(us[i] * (i + 1))`, then the rest follows. */
  function ShuffleDown<T>(s: seq<T>, us: seq<real>, i: int): (r: seq<T>)
    requires |us| == |s| && AllUnit(us) && i < |s|
    ensures |r| == |s|
    decreases i
  {
    if i <= 0 then s
    else ShuffleDown(Swap(s, i, FloorRandom(us[i], 0, i + 1)), us, i - 1)
  }

  /** `shuffleArrayRandomly`: the in-place Durstenfeld shuffle, one draw per
      position; the array ends as a permutation of what it held. */
  method ShuffleArrayRandomly<T>(a: array<T>, us: seq<real>)
    requires |us| == a.Length && AllUnit(us)
    modifies a
    ensures a[..] == ShuffleDown(old(a[..]), us, a.Length - 1)
    ensures multiset(a[..]) == multiset(old(a[..]))
  {
    ghost var shuffled := ShuffleDown(a[..], us, a.Length - 1);
    var i := a.Length - 1;
    while i > 0
      invariant -1 <= i < a.Length
      invariant ShuffleDown(a[..], us, i) == shuffled
    {
      ghost var before := a[..];
      var j := FloorRandom(us[i], 0, i + 1);
      var temp := a[i];
      a[i] := a[j];
      a[j] := temp;
      assert a[..] == Swap(before, i, j);
      i := i - 1;
    }
    ShufflePermutes(old(a[..]), us, a.Length - 1);
  }

  /** The shuffle only rearranges: the result is a permutation of its input. */
  lemma {:induction false} ShufflePermutes<T>(s: seq<T>, us: seq<real>, i: int)
    requires |us| == |s| && AllUnit(us) && i < |s|
    ensures multiset(ShuffleDown(s, us, i)) == multiset(s)
    decreases i
  {
    if i > 0 {
      var j := FloorRandom(us[i], 0, i + 1);
      SwapPermutes(s, i, j);
      ShufflePermutes(Swap(s, i, j), us, i - 1);
    }
  }

  /** `n` draws of 0. */
  function Zeros(n: nat): (r: seq<real>)
    ensures |r| == n && AllUnit(r)
  {
    seq(n, _ => 0.0)
  }

  /** The draw `j / n` makes `floor(random(n))` pick `j`. */
  lemma DrawPicks(j: int, n: int)
    requires 0 <= j < n
    ensures IsUnit(j as real / n as real) && FloorRandom(j as real / n as real, 0, n) == j
  {
    var u := j as real / n as real;
    assert u * n as real == j as real;
    assert u < 1.0 by {
      assert u * n as real < n as real;
    }
  }

  /** Swapping two positions below `i + 1` permutes the first `i + 1`
      elements and leaves the rest alone. */
  lemma SwapInPrefix<T>(s: seq<T>, i: int, j: int)
    requires 0 <= j <= i < |s|
    ensures multiset(Swap(s, i, j)[..i + 1]) == multiset(s[..i + 1])
    ensures Swap(s, i, j)[i + 1..] == s[i + 1..]
  {
    assert Swap(s, i, j)[..i + 1] == Swap(s[..i + 1], i, j);
    SwapPermutes(s[..i + 1], i, j);
  }

  /** Once position `i` holds the right element, the rest of the goal is
      one position shorter. */
  lemma PrefixStep<T>(t: seq<T>, p: seq<T>, i: int)
    requires 0 < i < |t| == |p| && t[i] == p[i]
    requires multiset(t[..i + 1]) == multiset(p[..i + 1]) && t[i + 1..] == p[i + 1..]
    ensures multiset(t[..i]) == multiset(p[..i]) && t[i..] == p[i..]
  {
    assert t[..i + 1] == t[..i] + [t[i]] && p[..i + 1] == p[..i] + [p[i]];
    assert multiset(t[..i + 1]) == multiset(t[..i]) + multiset{t[i]};
    assert multiset(p[..i + 1]) == multiset(p[..i]) + multiset{p[i]};
    assert multiset(t[..i]) == multiset(t[..i + 1]) - multiset{t[i]};
    assert t[i..] == [t[i]] + t[i + 1..] && p[i..] == [p[i]] + p[i + 1..];
  }

  /** Replacing the draw at `i` by `u` keeps the draws in [0, 1), and the
      recursion's promise above `i - 1` pins the new draw and the old ones
      above it. */
  lemma SetDraw(us: seq<real>, vs: seq<real>, i: int, u: real)
    requires AllUnit(us) && IsUnit(u) && 0 <= i < |us| == |vs|
    ensures AllUnit(us[i := u])
    ensures vs[i..] == us[i := u][i..] ==> vs[i] == u && vs[i + 1..] == us[i + 1..]
  {
    if vs[i..] == us[i := u][i..] {
      assert vs[i] == vs[i..][0];
      assert vs[i + 1..] == vs[i..][1..] && us[i + 1..] == us[i := u][i..][1..];
    }
  }

  /** One step of the shuffle whose draw at `i` picks `j`. */
  lemma ShuffleStep<T>(s: seq<T>, vs: seq<real>, i: int, j: int)
    requires |vs| == |s| && AllUnit(vs) && 0 < i < |s| && 0 <= j <= i
    requires FloorRandom(vs[i], 0, i + 1) == j
    ensures ShuffleDown(s, vs, i) == ShuffleDown(Swap(s, i, j), vs, i - 1)
  {
  }

  /** A one-element prefix that is a rearrangement of another is equal to
      it. */
  lemma SinglePrefix<T>(s: seq<T>, p: seq<T>)
    requires 0 < |s| == |p| && multiset(s[..1]) == multiset(p[..1]) && s[1..] == p[1..]
    ensures s == p
  {
    assert s[..1] == [s[0]] && p[..1] == [p[0]];
    assert s == s[..1] + s[1..] && p == p[..1] + p[1..];
  }

  /** Some position in the first `i + 1` of `s` holds `p[i]`. */
  lemma Source<T>(s: seq<T>, p: seq<T>, i: int) returns (j: int)
    requires 0 <= i < |s| == |p| && multiset(s[..i + 1]) == multiset(p[..i + 1])
    ensures 0 <= j <= i && s[j] == p[i]
  {
    assert p[..i + 1][i] == p[i];
    assert p[i] in multiset(s[..i + 1]);
    j :| 0 <= j <= i && s[..i + 1][j] == p[i];
  }

  /** The shuffle from position `i` down can turn `s` into any `p` that
      agrees with it above `i` and rearranges its first `i + 1` elements;
      the draws it needs replace those of `us` at positions `1 .. i`. */
  lemma {:induction false} ShuffleReaches<T>(s: seq<T>, p: seq<T>, us: seq<real>, i: int) returns (vs: seq<real>)
    requires |p| == |s| == |us| && AllUnit(us) && 0 <= i < |s|
    requires multiset(s[..i + 1]) == multiset(p[..i + 1]) && s[i + 1..] == p[i + 1..]
    ensures |vs| == |s| && AllUnit(vs) && vs[i + 1..] == us[i + 1..]
    ensures ShuffleDown(s, vs, i) == p
    decreases i
  {
    if i == 0 {
      SinglePrefix(s, p);
      vs := us;
    } else {
      var j := Source(s, p, i);
      DrawPicks(j, i + 1);
      var u := j as real / (i + 1) as real;
      var t := Swap(s, i, j);
      SwapInPrefix(s, i, j);
      PrefixStep(t, p, i);
      SetDraw(us, us, i, u);
      vs := ShuffleReaches(t, p, us[i := u], i - 1);
      SetDraw(us, vs, i, u);
      ShuffleStep(s, vs, i, j);
    }
  }

  /** The Durstenfeld shuffle can produce every permutation of its input:
      for each rearrangement `p` there are draws `us` that give it. */
  lemma ShuffleReachesAll<T>(s: seq<T>, p: seq<T>) returns (us: seq<real>)
    requires |s| > 0 && |p| == |s| && multiset(p) == multiset(s)
    ensures |us| == |s| && AllUnit(us) && ShuffleDown(s, us, |s| - 1) == p
  {
    assert s[..|s|] == s && p[..|p|] == p;
    us := ShuffleReaches(s, p, Zeros(|s|), |s| - 1);
  }

  lemma SwapKeepsIndexPerm(s: seq<Tile>, i: int, j: int)
    requires 0 <= i < |s| && 0 <= j < |s|
    requires IndexPerm(s)
    ensures IndexPerm(Swap(s, i, j))
  {
    var r := Swap(s, i, j);
    forall v | 0 <= v < |r| ensures HasIndex(r, v) {
      assert HasIndex(s, v);
      var k :| 0 <= k < |s| && s[k].index == v;
      var k' := if k == i then j else if k == j then i else k;
      assert r[k'] == s[k];
    }
    forall k, m | 0 <= k < m < |r| ensures IndexAt(r, k) != IndexAt(r, m) {
      var k' := if k == i then j else if k == j then i else k;
      var m' := if m == i then j else if m == j then i else m;
      assert r[k] == s[k'] && r[m] == s[m'];
      if k' < m' {
        assert IndexAt(s, k') != IndexAt(s, m');
      } else {
        assert IndexAt(s, m') != IndexAt(s, k');
      }
    }
  }

  /** Shuffling keeps the tile indices a permutation of 0 .. n-1. */
  lemma {:induction false} ShuffleKeepsIndexPerm(s: seq<Tile>, us: seq<real>, i: int)
    requires |us| == |s| && AllUnit(us) && i < |s|
    requires IndexPerm(s)
    ensures IndexPerm(ShuffleDown(s, us, i))
    decreases i
  {
    if i > 0 {
      var j := FloorRandom(us[i], 0, i + 1);
      SwapKeepsIndexPerm(s, i, j);
      ShuffleKeepsIndexPerm(Swap(s, i, j), us, i - 1);
    }
  }

  /** Every element of a permutation of `a` is an element of `a`. */
  lemma PermutedMembers<T>(a: seq<T>, b: seq<T>)
    requires multiset(a) == multiset(b)
    ensures forall k :: 0 <= k < |b| ==> b[k] in a
  {
    forall k | 0 <= k < |b| ensures b[k] in a {
      assert b[k] in multiset(b);
    }
  }

  /** `pushTiles`: the grid built in push order (returned as `built`) and
      shuffled once, so that the indices end up a permutation. */
  method PushTiles(fromAngle: int -> Point, us: seq<real>)
    returns (a: array<Tile>, ghost built: seq<Tile>)
    requires |us| == GridCount && AllUnit(us)
    ensures fresh(a) && a.Length == GridCount
    ensures PushOrder(built)
    ensures a[..] == ShuffleDown(built, us, |built| - 1)
    ensures GridShapeOk(a[..]) && AllInState(a[..], RectState)
    ensures forall k :: 0 <= k < a.Length ==> !a[k].isRotating && !a[k].isBlobbing
  {
    var s := BuildTiles(fromAngle);
    built := s;
    a := new Tile[|s|](k requires 0 <= k < |s| => s[k]);
    assert a[..] == s;
    ShuffleArrayRandomly(a, us);
    ShuffledGridOk(s, us);
    assert forall k :: 0 <= k < a.Length ==> a[k] in a[..];
  }

  /** The shuffled fresh grid satisfies the grid invariant. */
  lemma ShuffledGridOk(s: seq<Tile>, us: seq<real>)
    requires 0 < |s| && |us| == |s| && AllUnit(us)
    requires forall k :: 0 <= k < |s| ==> Pristine(s[k], k)
    ensures GridShapeOk(ShuffleDown(s, us, |s| - 1))
    ensures AllInState(ShuffleDown(s, us, |s| - 1), RectState)
    ensures forall t :: t in ShuffleDown(s, us, |s| - 1) ==> !t.isRotating && !t.isBlobbing
  {
    assert IndexPerm(s) by {
      forall v | 0 <= v < |s| ensures HasIndex(s, v) {
        assert s[v].index == v;
      }
    }
    assert GridShapeOk(s);
    ShuffleKeepsGrid(s, us);
    var r := ShuffleDown(s, us, |s| - 1);
    assert forall t :: t in r ==> t in s;
    assert forall t :: t in s ==> t.state == RectState && !t.isRotating && !t.isBlobbing;
  }

  /** `orderArrayByAscendingIndex`: every tile is written to the slot its
      index names (through a temporary keyed by index), so afterwards slot k
      holds the tile with index k, and that tile is the one from the input. */
  method OrderArrayByAscendingIndex(a: array<Tile>)
    requires IndexPerm(a[..])
    modifies a
    ensures forall k :: 0 <= k < a.Length ==> a[k].index == k
    ensures forall m :: 0 <= m < a.Length ==> a[old(a[m]).index] == old(a[m])
    ensures forall k :: 0 <= k < a.Length ==> a[k] in old(a[..])
  {
    ghost var s := a[..];
    var temp: map<int, Tile> := map[];
    var i := 0;
    while i < a.Length
      invariant 0 <= i <= a.Length && a[..] == s
      invariant forall m :: 0 <= m < i ==> s[m].index in temp && temp[s[m].index] == s[m]
      invariant forall v :: v in temp ==> temp[v].index == v && temp[v] in s
    {
      var b := a[i];
      forall m | 0 <= m < i ensures s[m].index != b.index {
        assert IndexAt(s, m) != IndexAt(s, i);
      }
      temp := temp[b.index := b];
      i := i + 1;
    }
    // `temp.length` is a.Length: the indices are exactly 0 .. a.Length-1
    i := 0;
    while i < a.Length
      invariant 0 <= i <= a.Length
      invariant forall k :: 0 <= k < i ==> k in temp && a[k] == temp[k]
    {
      assert i in temp by {
        assert HasIndex(s, i);
        var m :| 0 <= m < |s| && s[m].index == i;
      }
      a[i] := temp[i];
      i := i + 1;
    }
    forall m | 0 <= m < a.Length ensures a[s[m].index] == s[m] {
      assert s[m].index in temp;
    }
    forall k | 0 <= k < a.Length ensures a[k] in s {
      assert a[k] == temp[k];
    }
  }

  /** A shuffle of a valid grid is a valid grid made of the same tiles. */
  lemma ShuffleKeepsGrid(s: seq<Tile>, us: seq<real>)
    requires GridShapeOk(s) && |us| == |s| && AllUnit(us)
    ensures GridShapeOk(ShuffleDown(s, us, |s| - 1))
    ensures forall t :: t in ShuffleDown(s, us, |s| - 1) ==> t in s
  {
    var r := ShuffleDown(s, us, |s| - 1);
    ShuffleKeepsIndexPerm(s, us, |s| - 1);
    ShufflePermutes(s, us, |s| - 1);
    PermutedMembers(s, r);
  }

  /** Tiles of a valid grid put in index order form a valid grid. */
  lemma OrderKeepsGrid(s: seq<Tile>, r: seq<Tile>)
    requires GridShapeOk(s) && |r| == |s|
    requires forall k :: 0 <= k < |r| ==> r[k].index == k && r[k] in s
    ensures GridShapeOk(r)
  {
    assert IndexPerm(r) by {
      forall v | 0 <= v < |r| ensures HasIndex(r, v) {
        assert r[v].index == v;
      }
    }
  }

  /** Reordering by index undoes any permutation of a list built in push
      order (`pushTiles` gives tile k the index k), in particular the
      Durstenfeld shuffles. */
  lemma OrderRestoresPushOrder(built: seq<Tile>, shuffled: seq<Tile>, ordered: seq<Tile>)
    requires forall k :: 0 <= k < |built| ==> built[k].index == k
    requires multiset(shuffled) == multiset(built)
    requires |ordered| == |built|
    requires forall m :: 0 <= m < |shuffled| ==>
               0 <= shuffled[m].index < |ordered| && ordered[shuffled[m].index] == shuffled[m]
    ensures ordered == built
  {
    PermutedMembers(shuffled, built);
    forall k | 0 <= k < |built| ensures ordered[k] == built[k] {
      var m :| 0 <= m < |shuffled| && shuffled[m] == built[k];
    }
  }

  /** Sampling limits and the distance threshold of `areShapesSettled`. */
  const SampleTiles := 20
  const SampleVertices := 10
  const SettledThreshold := 0.1
  const SettledNeeded := 15

  /** The ring vertex a tile's morph ring is heading for. */
  function TargetVertex(t: Tile, j: int): Point
    requires WellFormed(t) && 0 <= j < RingSize
  {
    if t.state == CircleState then t.circle[j] else t.rect[j]
  }

  /** `p5.Vector.dist(p, q) <= threshold`, compared squared (both sides are
      non-negative, so the two comparisons agree). */
  predicate Near(p: Point, q: Point) {
    var dx, dy := p.x - q.x, p.y - q.y;
    dx * dx + dy * dy <= SettledThreshold * SettledThreshold
  }

  /** A tile is settled when its first ten morph vertices are all near their targets. */
  predicate TileSettled(t: Tile)
    requires WellFormed(t)
  {
    forall j :: 0 <= j < Min(|t.morph|, SampleVertices) ==> Near(t.morph[j], TargetVertex(t, j))
  }

  /** How many of the first `n` tiles are settled. */
  function SettledCount(s: seq<Tile>, n: int): (c: nat)
    requires AllWellFormed(s) && 0 <= n <= |s|
    ensures c <= n
  {
    if n == 0 then 0
    else SettledCount(s, n - 1) + (if TileSettled(s[n - 1]) then 1 else 0)
  }

  /** `areShapesSettled`: more than 15 of the first min(n, 20) tiles are settled. */
  predicate Settled(s: seq<Tile>)
    requires AllWellFormed(s)
  {
    SettledCount(s, Min(|s|, SampleTiles)) > SettledNeeded
  }

  /** `areShapesSettled`'s nested loops: count the settled tiles among the
      first twenty, testing at most ten vertices each and stopping a tile's
      test at its first vertex farther than the threshold. */
  method AreShapesSettled(tiles: array<Tile>) returns (settled: bool)
    requires AllWellFormed(tiles[..])
    ensures settled == Settled(tiles[..])
  {
    var settledCount := 0;
    var n := Min(tiles.Length, SampleTiles);
    var i := 0;
    while i < n
      invariant 0 <= i <= n
      invariant settledCount == SettledCount(tiles[..], i)
    {
      var tile := tiles[i];
      var tileSettled := true;
      var m := Min(|tile.morph|, SampleVertices);
      var j := 0;
      while j < m
        invariant 0 <= j <= m
        invariant forall j' :: 0 <= j' < j ==> Near(tile.morph[j'], TargetVertex(tile, j'))
      {
        var target := if tile.state == CircleState then tile.circle[j] else tile.rect[j];
        var current := tile.morph[j];
        if !Near(current, target) {
          tileSettled := false;
          break;
        }
        j := j + 1;
      }
      assert tileSettled == TileSettled(tile);
      if tileSettled {
        settledCount := settledCount + 1;
      }
      i := i + 1;
    }
    settled := settledCount > SettledNeeded;
  }

  /** With 15 tiles or fewer the check can never pass. */
  lemma FewTilesNeverSettle(s: seq<Tile>)
    requires AllWellFormed(s) && |s| <= SettledNeeded
    ensures !Settled(s)
  {
  }

  /** Tiles whose sampled morph vertices sit exactly on their targets are settled. */
  lemma {:induction false} ExactCountsAll(s: seq<Tile>, n: int)
    requires AllWellFormed(s) && 0 <= n <= |s|
    requires forall k, j :: 0 <= k < n && 0 <= j < SampleVertices ==> s[k].morph[j] == TargetVertex(s[k], j)
    ensures SettledCount(s, n) == n
  {
    if n > 0 {
      ExactCountsAll(s, n - 1);
      var t := s[n - 1];
      forall j | 0 <= j < Min(|t.morph|, SampleVertices) ensures Near(t.morph[j], TargetVertex(t, j)) {
        assert t.morph[j] == TargetVertex(t, j);
      }
    }
  }

  /** Tiles whose first morph vertex is beyond the threshold are not settled. */
  lemma {:induction false} FarCountsNone(s: seq<Tile>, n: int)
    requires AllWellFormed(s) && 0 <= n <= |s|
    requires forall k :: 0 <= k < n ==> !Near(s[k].morph[0], TargetVertex(s[k], 0))
    ensures SettledCount(s, n) == 0
  {
    if n > 0 {
      FarCountsNone(s, n - 1);
    }
  }

  /** A population of at least 16 tiles whose sampled vertices are on target
      is settled; one whose sampled tiles are all off target is not. */
  lemma SettledExtremes(s: seq<Tile>)
    requires AllWellFormed(s)
    ensures |s| > SettledNeeded &&
            (forall k, j :: 0 <= k < Min(|s|, SampleTiles) && 0 <= j < SampleVertices ==>
               s[k].morph[j] == TargetVertex(s[k], j))
            ==> Settled(s)
    ensures (forall k :: 0 <= k < Min(|s|, SampleTiles) ==> !Near(s[k].morph[0], TargetVertex(s[k], 0)))
            ==> !Settled(s)
  {
    var n := Min(|s|, SampleTiles);
    if |s| > SettledNeeded &&
       (forall k, j :: 0 <= k < n && 0 <= j < SampleVertices ==> s[k].morph[j] == TargetVertex(s[k], j)) {
      ExactCountsAll(s, n);
    }
    if forall k :: 0 <= k < n ==> !Near(s[k].morph[0], TargetVertex(s[k], 0)) {
      FarCountsNone(s, n);
    }
  }

  /** The settlement check and the grid invariant only look at identities,
      shape states and rings, so flag and noise updates keep both. */
  lemma SameGeometryKeeps(a: seq<Tile>, b: seq<Tile>)
    requires SameGeometry(a, b)
    ensures GridShapeOk(a) ==> GridShapeOk(b)
    ensures AllWellFormed(a) ==> AllWellFormed(b) && Settled(a) == Settled(b)
  {
    SameIndicesKeepPerm(a, b);
    if AllWellFormed(a) {
      assert AllWellFormed(b);
      SameGeometryCount(a, b, Min(|a|, SampleTiles));
    }
  }

  lemma {:induction false} SameGeometryCount(a: seq<Tile>, b: seq<Tile>, n: int)
    requires SameGeometry(a, b) && AllWellFormed(a) && AllWellFormed(b) && 0 <= n <= |a|
    ensures SettledCount(a, n) == SettledCount(b, n)
  {
    if n > 0 {
      SameGeometryCount(a, b, n - 1);
      assert TileSettled(a[n - 1]) == TileSettled(b[n - 1]);
    }
  }
}
