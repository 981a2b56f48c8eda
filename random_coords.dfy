/**
 * The enemy spawn sampler of the level worker, `getRandomCoord`: it rotates the
 * level outline by one point, splits it into the points right (x < 0) and left
 * (x > 0) of the centre line, draws a depth z away from the player, finds on
 * each side the outline points that bracket z, and draws x between them.
 *
 * `Math.random()` is a supply of draws in [0, 1) handed in by the caller. The
 * two `do … while` retry loops of the source have no bound; here they stop
 * with `OutOfDraws` when the supply runs out. JavaScript's infinities, used as
 * the start values of the bracket scan, are the extended reals `Ext`.
 */
module RandomCoords {

  import opened Geometry
  import Numbers

  const MIN_PLAYER_DISTANCE: real := 10.0
  const LEVEL0_TOP_COORD: real := 37.0

  /** A real number or one of JavaScript's two infinities. */
  datatype Ext = NegInf | Fin(r: real) | PosInf

  /** The strict order `<` on extended reals. */
  predicate Less(a: Ext, b: Ext)
  {
    match (a, b)
    case (NegInf, NegInf) => false
    case (NegInf, _) => true
    case (Fin(x), Fin(y)) => x < y
    case (Fin(_), PosInf) => true
    case _ => false
  }

  /** `Math.max` on extended reals. */
  function ExtMax(a: Ext, b: Ext): (r: Ext)
    ensures r == a || r == b
    ensures !Less(r, a) && !Less(r, b)
  {
    if Less(a, b) then b else a
  }

  /** `Math.min` on extended reals. */
  function ExtMin(a: Ext, b: Ext): (r: Ext)
    ensures r == a || r == b
    ensures !Less(a, r) && !Less(b, r)
  {
    if Less(a, b) then a else b
  }

  /** Adding a real to an extended real; the infinities absorb it. */
  function Shift(a: Ext, d: real): (r: Ext)
    ensures r.Fin? <==> a.Fin?
    ensures a.Fin? ==> r.r == a.r + d
  {
    if a.Fin? then Fin(a.r + d) else a
  }

  // ---------------------------------------------------------------------------
  // Rotation and partition of the outline
  // ---------------------------------------------------------------------------

  /** `bounds.push(bounds.shift())`: the first point moves to the end. */
  function RotatedLeft(s: seq<Coords>): (r: seq<Coords>)
    requires |s| > 0
  {
    s[1..] + [s[0]]
  }

  /** Rotating moves every point one place towards the front and the first one to the back, and loses none. */
  lemma RotatedLeftAt(s: seq<Coords>)
    requires |s| > 0
    ensures |RotatedLeft(s)| == |s|
    ensures forall k | 0 <= k < |s| - 1 :: RotatedLeft(s)[k] == s[k + 1]
    ensures RotatedLeft(s)[|s| - 1] == s[0]
    ensures multiset(RotatedLeft(s)) == multiset(s)
  {
    assert s == [s[0]] + s[1..];
  }

  /** The rotation of the outline, done in place on the array as the source does. */
  method RotateLeft(a: array<Coords>)
    requires a.Length > 0
    modifies a
    ensures a[..] == RotatedLeft(old(a[..]))
  {
    var first := a[0];
    var i := 0;
    while i < a.Length - 1
      invariant 0 <= i <= a.Length - 1
      invariant forall k | 0 <= k < i :: a[k] == old(a[k + 1])
      invariant forall k | i <= k < a.Length :: a[k] == old(a[k])
    {
      a[i] := a[i + 1];
      i := i + 1;
    }
    a[a.Length - 1] := first;
  }

  /** `Array.prototype.filter` over outline points. */
  function Filter(s: seq<Coords>, keep: Coords -> bool): (r: seq<Coords>)
    ensures |r| <= |s|
    ensures forall p :: p in r <==> p in s && keep(p)
  {
    if |s| == 0 then []
    else Filter(s[..|s| - 1], keep) + (if keep(s[|s| - 1]) then [s[|s| - 1]] else [])
  }

  /** Filtering keeps the order of the points: filtering a concatenation concatenates the filtered parts. */
  lemma {:induction false} FilterAppend(s: seq<Coords>, t: seq<Coords>, keep: Coords -> bool)
    ensures Filter(s + t, keep) == Filter(s, keep) + Filter(t, keep)
    decreases |t|
  {
    if |t| == 0 {
      assert s + t == s;
    } else {
      var t' := t[..|t| - 1];
      assert (s + t)[..|s + t| - 1] == s + t';
      FilterAppend(s, t', keep);
    }
  }

  /** `bounds.filter(bound => bound[0] < 0)`. */
  function RightSide(s: seq<Coords>): seq<Coords>
  {
    Filter(s, (p: Coords) => p.0 < 0.0)
  }

  /** `bounds.filter(bound => bound[0] > 0)`. */
  function LeftSide(s: seq<Coords>): seq<Coords>
  {
    Filter(s, (p: Coords) => p.0 > 0.0)
  }

  /** The right side holds exactly the points with x < 0, the left side exactly those with x > 0; a point on the centre line is in neither. */
  lemma Sides(s: seq<Coords>, p: Coords)
    ensures p in RightSide(s) <==> p in s && p.0 < 0.0
    ensures p in LeftSide(s) <==> p in s && p.0 > 0.0
    ensures p.0 == 0.0 ==> p !in RightSide(s) && p !in LeftSide(s)
  {
  }

  // ---------------------------------------------------------------------------
  // The bracket scan
  // ---------------------------------------------------------------------------

  /**
   * The running values of one side's `forEach` scan: the x and z of the
   * tightest point found below the depth, and of the tightest found above.
   */
  datatype Bracket = Bracket(minX: Ext, minZ: Ext, maxX: Ext, maxZ: Ext)

  /** The start values `-Infinity` and `Infinity`. */
  const OPEN: Bracket := Bracket(NegInf, NegInf, PosInf, PosInf)

  /** The scan's callback for one point at depth `z` below or above `depth`. */
  function ScanPoint(b: Bracket, p: Coords, depth: real): Bracket
  {
    var below := if p.1 < depth && Less(b.minZ, Fin(p.1)) then b.(minX := Fin(p.0), minZ := Fin(p.1)) else b;
    if p.1 > depth && Less(Fin(p.1), below.maxZ) then below.(maxX := Fin(p.0), maxZ := Fin(p.1)) else below
  }

  /** The callback's two halves touch separate fields: the lower bracket, then the upper one. */
  lemma ScanPointFields(b: Bracket, p: Coords, depth: real)
    ensures var r := ScanPoint(b, p, depth);
      && (if p.1 < depth && Less(b.minZ, Fin(p.1)) then r.minX == Fin(p.0) && r.minZ == Fin(p.1) else r.minX == b.minX && r.minZ == b.minZ)
      && (if p.1 > depth && Less(Fin(p.1), b.maxZ) then r.maxX == Fin(p.0) && r.maxZ == Fin(p.1) else r.maxX == b.maxX && r.maxZ == b.maxZ)
  {
  }

  /** The scan over a whole side, in order. */
  function Scan(s: seq<Coords>, depth: real): Bracket
  {
    if |s| == 0 then OPEN else ScanPoint(Scan(s[..|s| - 1], depth), s[|s| - 1], depth)
  }

  /**
   * Point `i` is the tightest below `depth`: it lies strictly below, no point
   * strictly below lies higher, and it is the first of the points at its depth.
   */
  predicate LowerBracket(s: seq<Coords>, depth: real, i: int)
  {
    && 0 <= i < |s| && s[i].1 < depth
    && (forall j | 0 <= j < |s| && s[j].1 < depth :: s[j].1 <= s[i].1)
    && (forall j | 0 <= j < i && s[j].1 < depth :: s[j].1 < s[i].1)
  }

  /** Point `i` is the tightest above `depth`, the first of the points at its depth. */
  predicate UpperBracket(s: seq<Coords>, depth: real, i: int)
  {
    && 0 <= i < |s| && s[i].1 > depth
    && (forall j | 0 <= j < |s| && s[j].1 > depth :: s[j].1 >= s[i].1)
    && (forall j | 0 <= j < i && s[j].1 > depth :: s[j].1 > s[i].1)
  }

  /** At most one point is the tightest below `depth`. */
  lemma LowerUnique(s: seq<Coords>, depth: real, i: int, k: int)
    requires LowerBracket(s, depth, i) && LowerBracket(s, depth, k)
    ensures i == k
  {
  }

  /** At most one point is the tightest above `depth`. */
  lemma UpperUnique(s: seq<Coords>, depth: real, i: int, k: int)
    requires UpperBracket(s, depth, i) && UpperBracket(s, depth, k)
    ensures i == k
  {
  }

  /** The tightest point below among the first `n` points stays so, unless point `n` lies below it and higher. */
  lemma LowerExtend(s: seq<Coords>, depth: real, i: int)
    requires |s| > 0 && LowerBracket(s[..|s| - 1], depth, i)
    ensures s[|s| - 1].1 < depth && s[i].1 < s[|s| - 1].1 ==> LowerBracket(s, depth, |s| - 1)
    ensures !(s[|s| - 1].1 < depth && s[i].1 < s[|s| - 1].1) ==> LowerBracket(s, depth, i)
  {
    assert forall j | 0 <= j < |s| - 1 :: s[..|s| - 1][j] == s[j];
  }

  /** The first point below `depth` is the tightest so far. */
  lemma LowerFirst(s: seq<Coords>, depth: real)
    requires |s| > 0 && s[|s| - 1].1 < depth
    requires forall j | 0 <= j < |s| - 1 :: s[j].1 >= depth
    ensures LowerBracket(s, depth, |s| - 1)
  {
  }

  /** The tightest point above among the first `n` points stays so, unless point `n` lies above it and lower. */
  lemma UpperExtend(s: seq<Coords>, depth: real, i: int)
    requires |s| > 0 && UpperBracket(s[..|s| - 1], depth, i)
    ensures s[|s| - 1].1 > depth && s[i].1 > s[|s| - 1].1 ==> UpperBracket(s, depth, |s| - 1)
    ensures !(s[|s| - 1].1 > depth && s[i].1 > s[|s| - 1].1) ==> UpperBracket(s, depth, i)
  {
    assert forall j | 0 <= j < |s| - 1 :: s[..|s| - 1][j] == s[j];
  }

  /** The first point above `depth` is the tightest so far. */
  lemma UpperFirst(s: seq<Coords>, depth: real)
    requires |s| > 0 && s[|s| - 1].1 > depth
    requires forall j | 0 <= j < |s| - 1 :: s[j].1 <= depth
    ensures UpperBracket(s, depth, |s| - 1)
  {
  }

  /** When some point lies below `depth`, one of them is the tightest. */
  lemma {:induction false} LowerExists(s: seq<Coords>, depth: real)
    requires exists j | 0 <= j < |s| :: s[j].1 < depth
    ensures exists i :: LowerBracket(s, depth, i)
  {
    var n := |s| - 1;
    var t := s[..n];
    assert forall j | 0 <= j < n :: t[j] == s[j];
    if exists j | 0 <= j < n :: t[j].1 < depth {
      LowerExists(t, depth);
      var i :| LowerBracket(t, depth, i);
      LowerExtend(s, depth, i);
      var w := if s[n].1 < depth && s[i].1 < s[n].1 then n else i;
      assert LowerBracket(s, depth, w);
    } else {
      LowerFirst(s, depth);
      assert LowerBracket(s, depth, n);
    }
  }

  /** With no point below `depth`, the scan leaves both values at -Infinity. */
  lemma {:induction false} ScanLowerNone(s: seq<Coords>, depth: real)
    requires forall j | 0 <= j < |s| :: s[j].1 >= depth
    ensures Scan(s, depth).minX == NegInf && Scan(s, depth).minZ == NegInf
  {
    if |s| > 0 {
      var n := |s| - 1;
      var t := s[..n];
      assert forall j | 0 <= j < n :: t[j] == s[j];
      ScanLowerNone(t, depth);
      ScanPointFields(Scan(t, depth), s[n], depth);
    }
  }

  /** The scan settles on the x and z of the tightest point below `depth`. */
  lemma {:induction false} ScanLowerAt(s: seq<Coords>, depth: real, i: int)
    requires LowerBracket(s, depth, i)
    ensures Scan(s, depth).minX == Fin(s[i].0) && Scan(s, depth).minZ == Fin(s[i].1)
  {
    var n := |s| - 1;
    var t := s[..n];
    assert forall j | 0 <= j < n :: t[j] == s[j];
    ScanPointFields(Scan(t, depth), s[n], depth);
    if i < n {
      assert LowerBracket(t, depth, i);
      ScanLowerAt(t, depth, i);
    } else if exists j | 0 <= j < n :: t[j].1 < depth {
      LowerExists(t, depth);
      var k :| LowerBracket(t, depth, k);
      ScanLowerAt(t, depth, k);
    } else {
      ScanLowerNone(t, depth);
    }
  }

  /**
   * What the scan finds below `depth`: nothing (both values stay -Infinity)
   * when no point lies strictly below, otherwise the x and z of the tightest
   * point below.
   */
  lemma ScanLower(s: seq<Coords>, depth: real)
    ensures (forall j | 0 <= j < |s| :: s[j].1 >= depth) ==> Scan(s, depth).minX == NegInf && Scan(s, depth).minZ == NegInf
    ensures (exists j | 0 <= j < |s| :: s[j].1 < depth) ==>
              exists i :: LowerBracket(s, depth, i) && Scan(s, depth).minX == Fin(s[i].0) && Scan(s, depth).minZ == Fin(s[i].1)
  {
    if exists j | 0 <= j < |s| :: s[j].1 < depth {
      LowerExists(s, depth);
      var i :| LowerBracket(s, depth, i);
      ScanLowerAt(s, depth, i);
    } else {
      ScanLowerNone(s, depth);
    }
  }

  /** When some point lies above `depth`, one of them is the tightest. */
  lemma {:induction false} UpperExists(s: seq<Coords>, depth: real)
    requires exists j | 0 <= j < |s| :: s[j].1 > depth
    ensures exists i :: UpperBracket(s, depth, i)
  {
    var n := |s| - 1;
    var t := s[..n];
    assert forall j | 0 <= j < n :: t[j] == s[j];
    if exists j | 0 <= j < n :: t[j].1 > depth {
      UpperExists(t, depth);
      var i :| UpperBracket(t, depth, i);
      UpperExtend(s, depth, i);
      var w := if s[n].1 > depth && s[i].1 > s[n].1 then n else i;
      assert UpperBracket(s, depth, w);
    } else {
      UpperFirst(s, depth);
      assert UpperBracket(s, depth, n);
    }
  }

  /** With no point above `depth`, the scan leaves both values at Infinity. */
  lemma {:induction false} ScanUpperNone(s: seq<Coords>, depth: real)
    requires forall j | 0 <= j < |s| :: s[j].1 <= depth
    ensures Scan(s, depth).maxX == PosInf && Scan(s, depth).maxZ == PosInf
  {
    if |s| > 0 {
      var n := |s| - 1;
      var t := s[..n];
      assert forall j | 0 <= j < n :: t[j] == s[j];
      ScanUpperNone(t, depth);
      ScanPointFields(Scan(t, depth), s[n], depth);
    }
  }

  /** The scan settles on the x and z of the tightest point above `depth`. */
  lemma {:induction false} ScanUpperAt(s: seq<Coords>, depth: real, i: int)
    requires UpperBracket(s, depth, i)
    ensures Scan(s, depth).maxX == Fin(s[i].0) && Scan(s, depth).maxZ == Fin(s[i].1)
  {
    var n := |s| - 1;
    var t := s[..n];
    assert forall j | 0 <= j < n :: t[j] == s[j];
    ScanPointFields(Scan(t, depth), s[n], depth);
    if i < n {
      assert UpperBracket(t, depth, i);
      ScanUpperAt(t, depth, i);
    } else if exists j | 0 <= j < n :: t[j].1 > depth {
      UpperExists(t, depth);
      var k :| UpperBracket(t, depth, k);
      ScanUpperAt(t, depth, k);
    } else {
      ScanUpperNone(t, depth);
    }
  }

  /**
   * What the scan finds above `depth`: nothing (both values stay Infinity)
   * when no point lies strictly above, otherwise the x and z of the tightest
   * point above.
   */
  lemma ScanUpper(s: seq<Coords>, depth: real)
    ensures (forall j | 0 <= j < |s| :: s[j].1 <= depth) ==> Scan(s, depth).maxX == PosInf && Scan(s, depth).maxZ == PosInf
    ensures (exists j | 0 <= j < |s| :: s[j].1 > depth) ==>
              exists i :: UpperBracket(s, depth, i) && Scan(s, depth).maxX == Fin(s[i].0) && Scan(s, depth).maxZ == Fin(s[i].1)
  {
    if exists j | 0 <= j < |s| :: s[j].1 > depth {
      UpperExists(s, depth);
      var i :| UpperBracket(s, depth, i);
      ScanUpperAt(s, depth, i);
    } else {
      ScanUpperNone(s, depth);
    }
  }

  /** One side's `forEach` scan, with its four running variables. */
  method ScanSide(side: seq<Coords>, depth: real) returns (b: Bracket)
    ensures b == Scan(side, depth)
  {
    var minX, minZ, maxX, maxZ := NegInf, NegInf, PosInf, PosInf;
    for i := 0 to |side|
      invariant Bracket(minX, minZ, maxX, maxZ) == Scan(side[..i], depth)
    {
      assert side[..i + 1][..i] == side[..i];
      var z := side[i].1;
      if z < depth && Less(minZ, Fin(z)) {
        minX := Fin(side[i].0);
        minZ := Fin(z);
      }
      if z > depth && Less(Fin(z), maxZ) {
        maxX := Fin(side[i].0);
        maxZ := Fin(z);
      }
    }
    assert side[..|side|] == side;
    b := Bracket(minX, minZ, maxX, maxZ);
  }

  /**
   * The x interval for depth `z`: 0.5 inside the larger x of the right
   * side's two brackets, and 0.5 inside the smaller (below the level's top
   * coordinate) or larger (from it on) x of the left side's brackets.
   */
  function XRange(bounds: seq<Coords>, z: real): (Ext, Ext)
  {
    var right := Scan(RightSide(bounds), z);
    var left := Scan(LeftSide(bounds), z);
    (Shift(ExtMax(right.minX, right.maxX), 0.5),
     Shift(if z < LEVEL0_TOP_COORD then ExtMin(left.minX, left.maxX) else ExtMax(left.minX, left.maxX), -0.5))
  }

  /**
   * A side's lower values are finite exactly when some point lies below the
   * depth, its upper values exactly when some point lies above it; neither
   * ever takes the other infinity.
   */
  lemma ScanFinite(s: seq<Coords>, depth: real)
    ensures Scan(s, depth).minX != PosInf && Scan(s, depth).maxX != NegInf
    ensures Scan(s, depth).minX.Fin? <==> exists p | p in s :: p.1 < depth
    ensures Scan(s, depth).maxX.Fin? <==> exists p | p in s :: p.1 > depth
  {
    ScanLower(s, depth);
    ScanUpper(s, depth);
    if exists p | p in s :: p.1 < depth {
      var p :| p in s && p.1 < depth;
      var j :| 0 <= j < |s| && s[j] == p;
      assert s[j].1 < depth;
    }
    if exists p | p in s :: p.1 > depth {
      var p :| p in s && p.1 > depth;
      var j :| 0 <= j < |s| && s[j] == p;
      assert s[j].1 > depth;
    }
  }

  /**
   * When the x interval is finite: its lower end exactly when some right
   * point lies above `z`; its upper end, below the top coordinate, exactly
   * when some left point lies below `z`, and from it on exactly when some left
   * point lies above `z`.
   */
  lemma XRangeFinite(bounds: seq<Coords>, z: real)
    ensures XRange(bounds, z).0.Fin? <==> exists p | p in bounds :: p.0 < 0.0 && p.1 > z
    ensures z < LEVEL0_TOP_COORD ==> (XRange(bounds, z).1.Fin? <==> exists p | p in bounds :: p.0 > 0.0 && p.1 < z)
    ensures z >= LEVEL0_TOP_COORD ==> (XRange(bounds, z).1.Fin? <==> exists p | p in bounds :: p.0 > 0.0 && p.1 > z)
  {
    var rs, ls := RightSide(bounds), LeftSide(bounds);
    ScanFinite(rs, z);
    ScanFinite(ls, z);
    assert (exists p | p in rs :: p.1 > z) <==> exists p | p in bounds :: p.0 < 0.0 && p.1 > z;
    assert (exists p | p in ls :: p.1 < z) <==> exists p | p in bounds :: p.0 > 0.0 && p.1 < z;
    assert (exists p | p in ls :: p.1 > z) <==> exists p | p in bounds :: p.0 > 0.0 && p.1 > z;
  }

  // ---------------------------------------------------------------------------
  // The retry loops
  // ---------------------------------------------------------------------------

  /** Every draw of `Math.random()` lies in [0, 1). */
  predicate Draws(draws: seq<real>)
  {
    forall i | 0 <= i < |draws| :: 0.0 <= draws[i] < 1.0
  }

  /** `Math.abs(v - player) < MIN_PLAYER_DISTANCE`. */
  predicate TooClose(v: real, player: real)
  {
    Abs(v - player) < MIN_PLAYER_DISTANCE
  }

  /** The z loop's condition to draw again: below the level's top coordinate and too close to the player. */
  predicate RetryZ(z: real, playerZ: real)
  {
    z < LEVEL0_TOP_COORD && TooClose(z, playerZ)
  }

  /** The x loop's condition to draw again: too close to the player on x and (from the z loop) on z. */
  predicate RetryX(x: real, playerX: real, tooCloseZ: bool)
  {
    TooClose(x, playerX) && tooCloseZ
  }

  /** The value a retry loop settles on and the index of the next unused draw, or the supply ran out. */
  datatype Drawn = Drawn(value: real, next: nat) | Exhausted

  /**
   * What the z loop settles on: the first draw from `from` on whose value
   * needs no retry, every draw before it having needed one.
   */
  function FirstZ(minZ: real, maxZ: real, playerZ: real, draws: seq<real>, from: nat): (d: Drawn)
    requires Draws(draws)
    ensures d.Drawn? ==> from < d.next <= |draws| && d.value == Numbers.Random(minZ, maxZ, draws[d.next - 1])
    ensures d.Drawn? ==> !RetryZ(d.value, playerZ)
    ensures forall j | from <= j < (if d.Drawn? then d.next - 1 else |draws|) :: RetryZ(Numbers.Random(minZ, maxZ, draws[j]), playerZ)
    decreases |draws| - from
  {
    if from >= |draws| then Exhausted
    else
      var z := Numbers.Random(minZ, maxZ, draws[from]);
      if !RetryZ(z, playerZ) then Drawn(z, from + 1)
      else FirstZ(minZ, maxZ, playerZ, draws, from + 1)
  }

  /**
   * What the x loop settles on: the first draw from `from` on whose value
   * needs no retry, every draw before it having needed one.
   */
  function FirstX(minX: real, maxX: real, playerX: real, tooCloseZ: bool, draws: seq<real>, from: nat): (d: Drawn)
    requires Draws(draws)
    ensures d.Drawn? ==> from < d.next <= |draws| && d.value == Numbers.Random(minX, maxX, draws[d.next - 1])
    ensures d.Drawn? ==> !RetryX(d.value, playerX, tooCloseZ)
    ensures forall j | from <= j < (if d.Drawn? then d.next - 1 else |draws|) :: RetryX(Numbers.Random(minX, maxX, draws[j]), playerX, tooCloseZ)
    decreases |draws| - from
  {
    if from >= |draws| then Exhausted
    else
      var x := Numbers.Random(minX, maxX, draws[from]);
      if !RetryX(x, playerX, tooCloseZ) then Drawn(x, from + 1)
      else FirstX(minX, maxX, playerX, tooCloseZ, draws, from + 1)
  }

  /** The z loop, drawing until a value needs no retry. */
  method DrawZ(minZ: real, maxZ: real, playerZ: real, draws: seq<real>, from: nat) returns (d: Drawn)
    requires Draws(draws)
    ensures d == FirstZ(minZ, maxZ, playerZ, draws, from)
  {
    var i := from;
    while i < |draws|
      invariant from <= i && (i <= |draws| || i == from)
      invariant FirstZ(minZ, maxZ, playerZ, draws, i) == FirstZ(minZ, maxZ, playerZ, draws, from)
      decreases |draws| - i
    {
      var z := Numbers.Random(minZ, maxZ, draws[i]);
      i := i + 1;
      if !RetryZ(z, playerZ) {
        return Drawn(z, i);
      }
    }
    return Exhausted;
  }

  /** The x loop, drawing until a value needs no retry. */
  method DrawX(minX: real, maxX: real, playerX: real, tooCloseZ: bool, draws: seq<real>, from: nat) returns (d: Drawn)
    requires Draws(draws)
    ensures d == FirstX(minX, maxX, playerX, tooCloseZ, draws, from)
  {
    var i := from;
    while i < |draws|
      invariant from <= i && (i <= |draws| || i == from)
      invariant FirstX(minX, maxX, playerX, tooCloseZ, draws, i) == FirstX(minX, maxX, playerX, tooCloseZ, draws, from)
      decreases |draws| - i
    {
      var x := Numbers.Random(minX, maxX, draws[i]);
      i := i + 1;
      if !RetryX(x, playerX, tooCloseZ) {
        return Drawn(x, i);
      }
    }
    return Exhausted;
  }

  /**
   * What a call gives: a spawn point; a point whose x is not a finite
   * number because a bracket is missing (the source returns NaN or an
   * infinity there); no point because the draws ran out; or no point because
   * the outline is empty (the source throws there).
   */
  datatype Spawned = Spawn(x: real, z: real) | NonFiniteX(z: real) | OutOfDraws | EmptyBounds

  /** `random(lo, hi)` lands in [lo, hi) (or (hi, lo] when the ends are swapped). */
  predicate Within(v: real, lo: real, hi: real)
  {
    && (lo < hi ==> lo <= v < hi)
    && (hi < lo ==> hi < v <= lo)
    && (lo == hi ==> v == lo)
  }

  /**
   * What a call gives for a non-empty outline, once rotated: the depth is the
   * z loop's value, and the x range is read off the outline at that depth. A
   * missing bracket gives a non-finite x when a draw is left for the x loop;
   * otherwise the point is the x loop's value at that depth. Either loop
   * running out of draws gives no point.
   */
  function Sample(rotated: seq<Coords>, minCoords: Coords, maxCoords: Coords, player: Vec3, draws: seq<real>): (r: Spawned)
    requires Draws(draws)
    ensures r != EmptyBounds
    ensures r.Spawn? || r.NonFiniteX? ==> Within(r.z, minCoords.1 + 0.5, maxCoords.1 - 0.5) && !RetryZ(r.z, player.z)
    ensures r.Spawn? ==> !(TooClose(r.x, player.x) && TooClose(r.z, player.z))
    ensures r.Spawn? ==> var (lo, hi) := XRange(rotated, r.z); lo.Fin? && hi.Fin? && Within(r.x, lo.r, hi.r)
    ensures r.NonFiniteX? ==> !XRange(rotated, r.z).0.Fin? || !XRange(rotated, r.z).1.Fin?
  {
    var dz := FirstZ(minCoords.1 + 0.5, maxCoords.1 - 0.5, player.z, draws, 0);
    if dz.Exhausted? then OutOfDraws
    else
      var (lo, hi) := XRange(rotated, dz.value);
      if !lo.Fin? || !hi.Fin? then
        if dz.next < |draws| then NonFiniteX(dz.value) else OutOfDraws
      else
        var dx := FirstX(lo.r, hi.r, player.x, TooClose(dz.value, player.z), draws, dz.next);
        if dx.Drawn? then Spawn(dx.value, dz.value) else OutOfDraws
  }

  /** `getRandomCoord(params)`, with the outline as the array it rotates in place. */
  method GetRandomCoord(bounds: array<Coords>, minCoords: Coords, maxCoords: Coords, player: Vec3, draws: seq<real>)
    returns (r: Spawned)
    requires Draws(draws)
    modifies bounds
    ensures r == EmptyBounds <==> bounds.Length == 0
    ensures bounds.Length > 0 ==> bounds[..] == RotatedLeft(old(bounds[..]))
    ensures bounds.Length > 0 ==> r == Sample(bounds[..], minCoords, maxCoords, player, draws)
  {
    if bounds.Length == 0 {
      return EmptyBounds;
    }
    RotateLeft(bounds);
    var rotated := bounds[..];
    var minZ := minCoords.1 + 0.5;
    var maxZ := maxCoords.1 - 0.5;
    var dz := DrawZ(minZ, maxZ, player.z, draws, 0);
    if dz.Exhausted? {
      return OutOfDraws;
    }
    var z := dz.value;
    var tooCloseZ := TooClose(z, player.z);
    var right := ScanSide(RightSide(rotated), z);
    var left := ScanSide(LeftSide(rotated), z);
    var minX := Shift(ExtMax(right.minX, right.maxX), 0.5);
    var maxX := Shift(if z < LEVEL0_TOP_COORD then ExtMin(left.minX, left.maxX) else ExtMax(left.minX, left.maxX), -0.5);
    if !minX.Fin? || !maxX.Fin? {
      if dz.next < |draws| {
        return NonFiniteX(z);
      }
      return OutOfDraws;
    }
    var dx := DrawX(minX.r, maxX.r, player.x, tooCloseZ, draws, dz.next);
    if dx.Exhausted? {
      return OutOfDraws;
    }
    return Spawn(dx.value, z);
  }
}
