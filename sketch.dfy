/** The semicircle transition engine of src/sketch.rs (the library build).
    src/main.rs repeats every definition here except the `Model` struct,
    its constructor and `update`, which module Desktop models.

    Grid positions are integer pairs: they start integral and only ever
    move by unit vectors. Orientations are integer counts of quarter turns
    (pi/2 radians each), never reduced modulo 4. Times and viewport sizes
    are reals, colours are linear-sRGB triples, and every random draw is a
    parameter. */
module Sketch {
  import opened Easing

  /** Number of entries in a palette (`PALETTE_LEN`). */
  const PALETTE_LEN: nat := 8

  /** The f32 value of `FRAC_PI_2`: one quarter turn in radians. */
  const FRAC_PI_2: real := PI / 2.0

  /** Tiles per grid row, fixed by `GridInfo::new`. */
  const TILES_WIDE: int := 16

  /** A transition older than GRACE times its duration is finalised. */
  const GRACE: real := 1.2

  datatype Option<T> = None | Some(value: T)

  /** An integral grid coordinate (a whole-valued `Vec2` in the source). */
  datatype Cell = Cell(x: int, y: int)

  /** A point of screen space. */
  datatype Vec2 = Vec2(x: real, y: real)

  /** A colour in linear sRGB. */
  datatype LinSrgb = LinSrgb(red: real, green: real, blue: real)

  function AddCell(a: Cell, b: Cell): Cell
  {
    Cell(a.x + b.x, a.y + b.y)
  }

  function ToVec2(c: Cell): Vec2
  {
    Vec2(c.x as real, c.y as real)
  }

  /** The number of iterations of `0..n` (none when n is negative). */
  function Span(n: int): nat
  {
    if n < 0 then 0 else n
  }

  // ---------------------------------------------------------------------
  // Arithmetic helpers of the source
  // ---------------------------------------------------------------------

  /** `lerp(a, b, t)`: (1 - t) * a + t * b. */
  function Lerp(a: real, b: real, t: real): real
  {
    (1.0 - t) * a + t * b
  }

  /** `lerp` passes through its two end points. */
  lemma LerpEndpoints(a: real, b: real)
    ensures Lerp(a, b, 0.0) == a && Lerp(a, b, 1.0) == b
  {
  }

  /** `Vec2::lerp` of the vector library: self + (rhs - self) * s. */
  function LerpVec2(a: Vec2, b: Vec2, s: real): Vec2
  {
    Vec2(a.x + (b.x - a.x) * s, a.y + (b.y - a.y) * s)
  }

  /** `f32::clamp(min, max)`. */
  function Clamp(x: real, min: real, max: real): (r: real)
    ensures min <= max ==> min <= r <= max
    ensures min <= x <= max ==> r == x
    ensures x < min <= max ==> r == min
    ensures min <= max < x ==> r == max
  {
    if x < min then min else if x > max then max else x
  }

  /** The integer part of r, rounding toward zero. */
  function Trunc(r: real): int
  {
    if r >= 0.0 then r.Floor else -((-r).Floor)
  }

  /** The `%` operator on floats: the remainder takes the sign of a. */
  function FRem(a: real, b: real): real
    requires b != 0.0
  {
    a - b * Trunc(a / b) as real
  }

  /** For a >= 0 and b > 0, `a % b` is the remainder of floored division:
      it lies in [0, b) and differs from a by a whole multiple of b. */
  lemma FRemBound(a: real, b: real)
    requires a >= 0.0 && b > 0.0
    ensures 0.0 <= FRem(a, b) < b
    ensures FRem(a, b) == a - b * (a / b).Floor as real
  {
    var q := Trunc(a / b) as real;
    var r := a / b - q;
    assert 0.0 <= r < 1.0;
    assert FRem(a, b) == b * r;
    assert b * r < b;
  }

  // ---------------------------------------------------------------------
  // Grid geometry
  // ---------------------------------------------------------------------

  datatype GridInfo = GridInfo(
    wh: Vec2,
    tileSize: real,
    numTiles: Cell,
    transitionDuration: real,
    transitionDelay: real)

  /** What every grid built by `GridInfo::new` satisfies. */
  predicate WellFormed(g: GridInfo)
  {
    g.tileSize > 0.0 && g.numTiles.x >= 0 && g.numTiles.y >= 0 && g.transitionDuration > 0.0
  }

  /** `GridInfo::contains`. */
  function Contains(g: GridInfo, point: Cell): (r: bool)
    ensures r <==> 0 <= point.x < g.numTiles.x && 0 <= point.y < g.numTiles.y
  {
    !(point.x >= g.numTiles.x || point.x < 0 || point.y >= g.numTiles.y || point.y < 0)
  }

  /** `GridInfo::new` for a window of the given size: 16 tiles across, as
      many whole rows as fit; the grid height is cut down to those rows. */
  function GridNew(width: real, height: real): (g: GridInfo)
    requires width > 0.0 && height >= 0.0
    ensures WellFormed(g)
    ensures g.tileSize * TILES_WIDE as real == width
    ensures g.numTiles.x == TILES_WIDE
    ensures g.numTiles.y as real * g.tileSize <= height < (g.numTiles.y + 1) as real * g.tileSize
    ensures g.wh == Vec2(width, g.numTiles.y as real * g.tileSize)
    ensures g.transitionDuration == 3.0 && g.transitionDelay == 1.0
  {
    var numTilesWide := TILES_WIDE as real;
    var tileSize := width / numTilesWide;
    var numTilesTall := (height / tileSize).Floor;
    FloorTimes(height, tileSize);
    var height := numTilesTall as real * tileSize;
    GridInfo(Vec2(width, height), tileSize, Cell(TILES_WIDE, numTilesTall), 3.0, 1.0)
  }

  /** Rounding height / tileSize down to n rows leaves n tiles of height at
      most `height` and n + 1 tiles of more than it. */
  lemma FloorTimes(height: real, tileSize: real)
    requires tileSize > 0.0
    ensures (height / tileSize).Floor as real * tileSize <= height
    ensures height < ((height / tileSize).Floor + 1) as real * tileSize
  {
    var q := height / tileSize;
    var n := q.Floor as real;
    assert q * tileSize == height;
    assert n <= q < n + 1.0;
    assert ((height / tileSize).Floor + 1) as real == n + 1.0;
    MulMonotone(n, q, tileSize);
    MulMonotone(q, n + 1.0, tileSize);
    assert height < (n + 1.0) * tileSize;
  }

  lemma MulMonotone(a: real, b: real, c: real)
    requires a <= b && c > 0.0
    ensures a * c <= b * c
    ensures a < b ==> a * c < b * c
  {
  }

  /** A 1600 x 900 window gives tiles of 100 and 9 whole rows. */
  lemma GridNewExample()
    ensures GridNew(1600.0, 900.0) == GridInfo(Vec2(1600.0, 900.0), 100.0, Cell(16, 9), 3.0, 1.0)
  {
    assert (900.0 / 100.0).Floor == 9;
  }

  /** The screen point of the centre of a (possibly fractional) grid
      coordinate: the grid is centred on the origin. */
  function ScreenPos(g: GridInfo, p: Vec2): Vec2
  {
    var bottomLeft := Vec2(-g.wh.x / 2.0, -g.wh.y / 2.0);
    var offset := g.tileSize / 2.0;
    Vec2(bottomLeft.x + offset + g.tileSize * p.x, bottomLeft.y + offset + g.tileSize * p.y)
  }

  /** Distinct cells land on distinct screen points. */
  lemma ScreenPosInjective(g: GridInfo, a: Cell, b: Cell)
    requires g.tileSize > 0.0
    requires ScreenPos(g, ToVec2(a)) == ScreenPos(g, ToVec2(b))
    ensures a == b
  {
    assert g.tileSize * (a.x as real - b.x as real) == 0.0;
    assert g.tileSize * (a.y as real - b.y as real) == 0.0;
  }

  /** Cell (0, 0) of the 1600 x 900 grid is centred at (-750, -400). */
  lemma ScreenPosExample()
    ensures ScreenPos(GridNew(1600.0, 900.0), ToVec2(Cell(0, 0))) == Vec2(-750.0, -400.0)
  {
    GridNewExample();
  }

  // ---------------------------------------------------------------------
  // Semicircles and transitions
  // ---------------------------------------------------------------------

  datatype SemiCircleType = Filled | Striped

  /** The target of a transition: an orientation or a grid cell. */
  datatype Transition = Rotation(orientation: int) | Translation(pos: Cell)

  /** A semicircle: its optional transition with the time it started, its
      grid cell, its orientation in quarter turns, its shape and its
      palette index. */
  datatype SemiCircle = SemiCircle(
    transition: Option<(Transition, real)>,
    pos: Cell,
    orientation: int,
    semiCircleType: SemiCircleType,
    colour: nat)

  /** An orientation counted in quarter turns, in radians. */
  function Radians(quarterTurns: int): real
  {
    quarterTurns as real * FRAC_PI_2
  }

  /** The cell an object occupies once its transition, if any, is over. */
  function EndPos(o: SemiCircle): Cell
  {
    match o.transition
    case Some((Translation(p), _)) => p
    case _ => o.pos
  }

  /** The orientation an object has once its transition, if any, is over. */
  function EndOrientation(o: SemiCircle): int
  {
    match o.transition
    case Some((Rotation(r), _)) => r
    case _ => o.orientation
  }

  /** `Transition::finalise`: snap the object to the target and clear the
      transition; nothing else changes. */
  function Finalise(t: Transition, o: SemiCircle): (r: SemiCircle)
    ensures r.transition == None
    ensures r.semiCircleType == o.semiCircleType && r.colour == o.colour
    ensures t.Rotation? ==> r.orientation == t.orientation && r.pos == o.pos
    ensures t.Translation? ==> r.pos == t.pos && r.orientation == o.orientation
  {
    var o := match t
      case Rotation(r2) => o.(orientation := r2)
      case Translation(p2) => o.(pos := p2);
    o.(transition := None)
  }

  /** How far a transition started at `start` has run at `sinceStart`,
      clamped to [0, 1]. */
  function Progress(g: GridInfo, start: real, sinceStart: real): real
    requires g.transitionDuration != 0.0
  {
    Clamp((sinceStart - start) / g.transitionDuration, 0.0, 1.0)
  }

  /** `SemiCircle::get_pos`: the screen position at time `sinceStart`,
      eased along an in-flight translation. */
  function GetPos(g: GridInfo, o: SemiCircle, lib: MathLib, sinceStart: real): Vec2
    requires g.transitionDuration != 0.0
  {
    var p := match o.transition
      case Some((Translation(p2), d)) =>
        LerpVec2(ToVec2(o.pos), ToVec2(p2), EaseOutElastic(lib, Progress(g, d, sinceStart)))
      case _ => ToVec2(o.pos);
    ScreenPos(g, p)
  }

  /** `SemiCircle::get_orientation`: the orientation in radians at time
      `sinceStart`, eased along an in-flight rotation. */
  function GetOrientation(g: GridInfo, o: SemiCircle, lib: MathLib, sinceStart: real): real
    requires g.transitionDuration != 0.0
  {
    match o.transition
    case Some((Rotation(o2), d)) =>
      Lerp(Radians(o.orientation), Radians(o2), EaseInOutElastic(lib, Progress(g, d, sinceStart)))
    case _ => Radians(o.orientation)
  }

  /** Without a translation in flight an object is drawn at the centre of
      its cell, whatever the time. */
  lemma PosAtRest(g: GridInfo, o: SemiCircle, lib: MathLib, t1: real, t2: real)
    requires g.transitionDuration != 0.0
    requires !(o.transition.Some? && o.transition.value.0.Translation?)
    ensures GetPos(g, o, lib, t1) == ScreenPos(g, ToVec2(o.pos))
    ensures GetPos(g, o, lib, t1) == GetPos(g, o, lib, t2)
  {
  }

  /** Without a rotation in flight an object is drawn at its stored
      orientation, whatever the time. */
  lemma OrientationAtRest(g: GridInfo, o: SemiCircle, lib: MathLib, t1: real, t2: real)
    requires g.transitionDuration != 0.0
    requires !(o.transition.Some? && o.transition.value.0.Rotation?)
    ensures GetOrientation(g, o, lib, t1) == Radians(o.orientation)
    ensures GetOrientation(g, o, lib, t1) == GetOrientation(g, o, lib, t2)
  {
  }

  /** Up to the start of its transition an object is drawn at its stored
      cell and orientation. */
  lemma PoseBeforeStart(g: GridInfo, o: SemiCircle, lib: MathLib, sinceStart: real)
    requires g.transitionDuration > 0.0
    requires o.transition.Some? && sinceStart <= o.transition.value.1
    ensures GetPos(g, o, lib, sinceStart) == ScreenPos(g, ToVec2(o.pos))
    ensures GetOrientation(g, o, lib, sinceStart) == Radians(o.orientation)
  {
    var d := o.transition.value.1;
    assert (sinceStart - d) / g.transitionDuration <= 0.0;
    assert Progress(g, d, sinceStart) == 0.0;
    ElasticEndpoints(lib);
  }

  /** Once its transition's duration has passed an object is drawn at the
      target: the progress clamps to 1 and both easings end at 1. */
  lemma PoseAfterEnd(g: GridInfo, o: SemiCircle, lib: MathLib, sinceStart: real)
    requires g.transitionDuration > 0.0
    requires o.transition.Some? && sinceStart >= o.transition.value.1 + g.transitionDuration
    ensures GetPos(g, o, lib, sinceStart) == ScreenPos(g, ToVec2(EndPos(o)))
    ensures GetOrientation(g, o, lib, sinceStart) == Radians(EndOrientation(o))
  {
    var d := o.transition.value.1;
    assert (sinceStart - d) / g.transitionDuration >= 1.0;
    assert Progress(g, d, sinceStart) == 1.0;
    ElasticEndpoints(lib);
  }

  // ---------------------------------------------------------------------
  // Building the grid of objects
  // ---------------------------------------------------------------------

  /** The number of objects `new_objects` builds: two per cell. */
  function ObjectCount(g: GridInfo): nat
  {
    2 * (Span(g.numTiles.x) * Span(g.numTiles.y))
  }

  /** The random values drawn for one new object: `random_orientation`
      (as its quarter-turn count), `SemiCircleType::generate_random` and
      `random_range(0, palette_len)`. */
  datatype Draw = Draw(quarterTurns: int, semiCircleType: SemiCircleType, colour: nat)

  /** The draws for a grid: one per object, each within its generator's range. */
  predicate DrawsFit(g: GridInfo, paletteLen: nat, draws: seq<Draw>)
  {
    && |draws| == ObjectCount(g)
    && forall k :: 0 <= k < |draws| ==> 0 <= draws[k].quarterTurns < 4 && draws[k].colour < paletteLen
  }

  /** A new, idle object in cell `pos`. */
  function NewObject(pos: Cell, d: Draw): SemiCircle
  {
    SemiCircle(None, pos, d.quarterTurns, d.semiCircleType, d.colour)
  }

  /** The objects in the order the nested loops of `new_objects` push them:
      column by column, row by row, two per cell. */
  function Layout(g: GridInfo, draws: seq<Draw>): (s: seq<SemiCircle>)
    requires |draws| == ObjectCount(g)
    ensures |s| == |draws|
  {
    var ny := Span(g.numTiles.y);
    if ny == 0 then []
    else seq(|draws|, k requires 0 <= k < |draws| => NewObject(Cell(k / 2 / ny, k / 2 % ny), draws[k]))
  }

  /** Division by ny recovers the column and row of the cell index x ny + y. */
  lemma CellIndex(x: int, y: int, ny: int)
    requires 0 <= x && 0 <= y < ny
    ensures (x * ny + y) / ny == x && (x * ny + y) % ny == y
  {
    var n := x * ny + y;
    var q, r := n / ny, n % ny;
    assert n == q * ny + r && 0 <= r < ny;
    assert (x - q) * ny == r - y;
    if x - q >= 1 {
      IntMulMonotone(1, x - q, ny);
    } else if x - q <= -1 {
      IntMulMonotone(x - q, -1, ny);
    }
  }

  lemma IntMulMonotone(a: int, b: int, c: int)
    requires a <= b && c >= 0
    ensures a * c <= b * c
  {
  }

  /** Push number 2 (x ny + y) + c of the loops is copy c of cell (x, y). */
  lemma LayoutAt(g: GridInfo, draws: seq<Draw>, x: int, y: int, c: int)
    requires |draws| == ObjectCount(g)
    requires 0 <= x < Span(g.numTiles.x) && 0 <= y < Span(g.numTiles.y) && 0 <= c < 2
    ensures 2 * (x * Span(g.numTiles.y) + y) + c < |draws|
    ensures Layout(g, draws)[2 * (x * Span(g.numTiles.y) + y) + c]
         == NewObject(Cell(x, y), draws[2 * (x * Span(g.numTiles.y) + y) + c])
  {
    var nx, ny := Span(g.numTiles.x), Span(g.numTiles.y);
    var n := x * ny + y;
    IntMulMonotone(x + 1, nx, ny);
    assert n < (x + 1) * ny <= nx * ny;
    CellIndex(x, y, ny);
    var k := 2 * n + c;
    assert k / 2 == n;
    assert Layout(g, draws)[k] == NewObject(Cell(n / ny, n % ny), draws[k]);
  }

  /** Every laid-out object is idle, inside the grid, and takes its
      orientation, shape and colour from its draw. */
  lemma LayoutObjects(g: GridInfo, paletteLen: nat, draws: seq<Draw>, k: int)
    requires DrawsFit(g, paletteLen, draws)
    requires 0 <= k < |draws|
    ensures Contains(g, Layout(g, draws)[k].pos)
    ensures Layout(g, draws)[k].transition == None
    ensures Layout(g, draws)[k].colour < paletteLen
    ensures 0 <= Layout(g, draws)[k].orientation < 4
  {
    SplitIndex(k, Span(g.numTiles.x), Span(g.numTiles.y));
  }

  /** Push number k of the loops lies in column k/2/ny and row k/2 % ny of
      the grid. */
  lemma SplitIndex(k: int, nx: nat, ny: nat)
    requires 0 <= k < 2 * (nx * ny)
    ensures ny > 0 && 0 <= k / 2 / ny < nx && 0 <= k / 2 % ny < ny
  {
    var c := k / 2;
    var x, y := c / ny, c % ny;
    assert c == x * ny + y;
    if x >= nx {
      IntMulMonotone(nx, x, ny);
    }
  }

  /** Every cell of the grid holds exactly the two objects at positions
      2 (x ny + y) and 2 (x ny + y) + 1 of the layout. */
  lemma LayoutCoversGrid(g: GridInfo, draws: seq<Draw>, p: Cell)
    requires |draws| == ObjectCount(g)
    requires Contains(g, p)
    ensures var k := 2 * (p.x * g.numTiles.y + p.y);
      k + 1 < |draws| && Layout(g, draws)[k].pos == p && Layout(g, draws)[k + 1].pos == p
    ensures forall k :: 0 <= k < |draws| && Layout(g, draws)[k].pos == p ==>
      k / 2 == p.x * g.numTiles.y + p.y
  {
    LayoutAt(g, draws, p.x, p.y, 0);
    LayoutAt(g, draws, p.x, p.y, 1);
    var ny := Span(g.numTiles.y);
    forall k | 0 <= k < |draws| && Layout(g, draws)[k].pos == p
      ensures k / 2 == p.x * g.numTiles.y + p.y
    {
      assert Layout(g, draws)[k].pos == Cell(k / 2 / ny, k / 2 % ny);
      assert k / 2 == (k / 2 / ny) * ny + k / 2 % ny;
    }
  }

  /** The random indices `SliceRandom::shuffle` draws: for each i, an index
      in 0..=i (the entry for 0 is never used). */
  predicate ShufflePicks(picks: seq<nat>, n: nat)
  {
    |picks| == n && forall i :: 0 <= i < n ==> picks[i] <= i
  }

  /** `objects.shuffle(..)`: a Fisher-Yates shuffle in place, swapping each
      index from the last down to 1 with a drawn index at or below it. */
  method Shuffle(a: array<SemiCircle>, picks: seq<nat>)
    requires ShufflePicks(picks, a.Length)
    modifies a
    ensures multiset(a[..]) == multiset(old(a[..]))
  {
    var i := a.Length;
    while i > 1
      invariant 0 <= i <= a.Length
      invariant multiset(a[..]) == multiset(old(a[..]))
    {
      i := i - 1;
      var j := picks[i];
      a[i], a[j] := a[j], a[i];
    }
  }

  /** `new_objects`: two idle objects per cell, pushed in column order,
      then shuffled. */
  method NewObjects(g: GridInfo, paletteLen: nat, draws: seq<Draw>, picks: seq<nat>)
      returns (objects: array<SemiCircle>)
    requires DrawsFit(g, paletteLen, draws)
    requires ShufflePicks(picks, |draws|)
    ensures fresh(objects)
    ensures objects.Length == ObjectCount(g)
    ensures multiset(objects[..]) == multiset(Layout(g, draws))
    ensures forall j :: 0 <= j < objects.Length ==>
      && objects[j].transition == None
      && Contains(g, objects[j].pos)
      && objects[j].colour < paletteLen
      && 0 <= objects[j].orientation < 4
  {
    var nx, ny := Span(g.numTiles.x), Span(g.numTiles.y);
    ghost var layout := Layout(g, draws);
    var built: seq<SemiCircle> := [];
    for x := 0 to nx
      invariant |built| == 2 * (x * ny) <= |layout| && built == layout[..|built|]
    {
      for y := 0 to ny
        invariant |built| == 2 * (x * ny + y) <= |layout| && built == layout[..|built|]
      {
        for c := 0 to 2
          invariant |built| == 2 * (x * ny + y) + c <= |layout| && built == layout[..|built|]
        {
          LayoutAt(g, draws, x, y, c);
          built := built + [NewObject(Cell(x, y), draws[|built|])];
        }
      }
      assert x * ny + ny == (x + 1) * ny;
    }
    assert built == layout;
    objects := new SemiCircle[|built|](k requires 0 <= k < |built| => built[k]);
    assert objects[..] == built;
    Shuffle(objects, picks);
    PermutedLayout(g, paletteLen, draws, objects[..]);
  }

  /** Any rearrangement of the layout keeps the properties of its objects. */
  lemma PermutedLayout(g: GridInfo, paletteLen: nat, draws: seq<Draw>, s: seq<SemiCircle>)
    requires DrawsFit(g, paletteLen, draws)
    requires multiset(s) == multiset(Layout(g, draws))
    ensures forall j :: 0 <= j < |s| ==>
      && s[j].transition == None
      && Contains(g, s[j].pos)
      && s[j].colour < paletteLen
      && 0 <= s[j].orientation < 4
  {
    var layout := Layout(g, draws);
    forall j | 0 <= j < |s|
      ensures && s[j].transition == None
              && Contains(g, s[j].pos)
              && s[j].colour < paletteLen
              && 0 <= s[j].orientation < 4
    {
      assert s[j] in multiset(s);
      assert s[j] in multiset(layout);
      var k :| 0 <= k < |layout| && layout[k] == s[j];
      LayoutObjects(g, paletteLen, draws, k);
    }
  }

  // ---------------------------------------------------------------------
  // The per-tick step
  // ---------------------------------------------------------------------

  /** An object whose transition has run longer than GRACE durations. */
  predicate Stale(g: GridInfo, o: SemiCircle, time: real)
  {
    o.transition.Some? && time - o.transition.value.1 > g.transitionDuration * GRACE
  }

  /** The first half of `update` for one object: a stale transition is
      finalised, anything else is left alone. */
  function Settle(g: GridInfo, o: SemiCircle, time: real): (r: SemiCircle)
    ensures !Stale(g, r, time)
    ensures !Stale(g, o, time) ==> r == o
    ensures Stale(g, o, time) ==>
      && r.transition == None
      && r.pos == EndPos(o) && r.orientation == EndOrientation(o)
      && r.semiCircleType == o.semiCircleType && r.colour == o.colour
  {
    match o.transition
    case Some((transition, start)) =>
      if time - start > g.transitionDuration * GRACE then Finalise(transition, o) else o
    case None => o
  }

  /** The loop of `update` over `objects.iter_mut()`. */
  method FinaliseStale(objects: array<SemiCircle>, g: GridInfo, time: real)
    modifies objects
    ensures forall j :: 0 <= j < objects.Length ==> objects[j] == Settle(g, old(objects[j]), time)
  {
    for i := 0 to objects.Length
      invariant forall j :: 0 <= j < i ==> objects[j] == Settle(g, old(objects[j]), time)
      invariant forall j :: i <= j < objects.Length ==> objects[j] == old(objects[j])
    {
      match objects[i].transition {
        case Some((transition, start)) =>
          if time - start > g.transitionDuration * GRACE {
            objects[i] := Finalise(transition, objects[i]);
          }
        case None =>
      }
    }
  }

  /** The random values `trigger` draws: the object index, whether to
      rotate, whether a rotation adds (rather than removes) a quarter turn,
      and the index into the four directions. */
  datatype TriggerDraw = TriggerDraw(index: nat, rotate: bool, positiveTurn: bool, direction: nat)

  /** `random_direction`: -X, X, Y, -Y by index. */
  function Direction(k: nat): (d: Cell)
    requires k < 4
    ensures (d.x == 0) != (d.y == 0) && -1 <= d.x <= 1 && -1 <= d.y <= 1
  {
    [Cell(-1, 0), Cell(1, 0), Cell(0, 1), Cell(0, -1)][k]
  }

  /** The transition `trigger` proposes for an object. */
  function Proposed(o: SemiCircle, draw: TriggerDraw): Transition
    requires draw.direction < 4
  {
    if draw.rotate then Rotation(o.orientation + if draw.positiveTurn then 1 else -1)
    else Translation(AddCell(o.pos, Direction(draw.direction)))
  }

  /** Whether `trigger` accepts its proposal: the object is idle and a
      proposed translation stays inside the grid. */
  predicate Accepts(g: GridInfo, o: SemiCircle, draw: TriggerDraw)
    requires draw.direction < 4
  {
    o.transition == None && (draw.rotate || Contains(g, Proposed(o, draw).pos))
  }

  /** What `trigger` does to the chosen object. */
  function Triggered(g: GridInfo, o: SemiCircle, time: real, draw: TriggerDraw): (r: SemiCircle)
    requires draw.direction < 4
    ensures r.pos == o.pos && r.orientation == o.orientation
    ensures r.semiCircleType == o.semiCircleType && r.colour == o.colour
    ensures o.transition.Some? ==> r == o
    ensures !Accepts(g, o, draw) ==> r == o
    ensures Accepts(g, o, draw) ==> r.transition == Some((Proposed(o, draw), time))
    ensures r.transition != o.transition ==> Contains(g, EndPos(r)) || draw.rotate
  {
    if o.transition.Some? then o
    else
      var transition :=
        if draw.rotate then
          var randRot := if draw.positiveTurn then 1 else -1;
          Some(Rotation(o.orientation + randRot))
        else
          var newPos := AddCell(o.pos, Direction(draw.direction));
          if !Contains(g, newPos) then None else Some(Translation(newPos));
      if transition.None? then o else o.(transition := Some((transition.value, time)))
  }

  /** `trigger`: try to start a transition on object `draw.index`. */
  method Trigger(objects: array<SemiCircle>, g: GridInfo, time: real, draw: TriggerDraw)
    requires draw.index < objects.Length && draw.direction < 4
    modifies objects
    ensures objects[..] == old(objects[..])[draw.index := Triggered(g, old(objects[draw.index]), time, draw)]
  {
    var i := draw.index;
    var obj := objects[i];
    if obj.transition.Some? {
      return;
    }
    var transition;
    if draw.rotate {
      var randRot := if draw.positiveTurn then 1 else -1;
      transition := Rotation(obj.orientation + randRot);
    } else {
      var newPos := AddCell(obj.pos, Direction(draw.direction));
      if !Contains(g, newPos) {
        return;
      }
      transition := Translation(newPos);
    }
    objects[i] := obj.(transition := Some((transition, time)));
  }

  /** An object inside the grid: its cell, the cell its transition heads
      for, and its palette index are all in range. */
  predicate Placed(g: GridInfo, o: SemiCircle)
  {
    Contains(g, o.pos) && Contains(g, EndPos(o)) && o.colour < PALETTE_LEN
  }

  /** Finalising keeps an object inside the grid. */
  lemma SettleKeepsPlaced(g: GridInfo, o: SemiCircle, time: real)
    requires Placed(g, o)
    ensures Placed(g, Settle(g, o, time))
  {
  }

  /** Triggering keeps an object inside the grid: a translation is only
      accepted towards a cell the grid contains. */
  lemma TriggeredKeepsPlaced(g: GridInfo, o: SemiCircle, time: real, draw: TriggerDraw)
    requires draw.direction < 4
    requires Placed(g, o)
    ensures Placed(g, Triggered(g, o, time, draw))
  {
  }

  /** Finalising never makes an object jump: a stale transition is past its
      duration, so the object is already drawn at its target. */
  lemma SettleIsSeamless(g: GridInfo, o: SemiCircle, lib: MathLib, time: real)
    requires g.transitionDuration > 0.0
    ensures GetPos(g, Settle(g, o, time), lib, time) == GetPos(g, o, lib, time)
    ensures GetOrientation(g, Settle(g, o, time), lib, time) == GetOrientation(g, o, lib, time)
  {
    if Stale(g, o, time) {
      PoseAfterEnd(g, o, lib, time);
    }
  }

  /** Triggering never makes an object jump: a new transition starts at
      progress 0, where the object is drawn at its stored pose. */
  lemma TriggeredIsSeamless(g: GridInfo, o: SemiCircle, lib: MathLib, time: real, draw: TriggerDraw)
    requires g.transitionDuration > 0.0 && draw.direction < 4
    ensures GetPos(g, Triggered(g, o, time, draw), lib, time) == GetPos(g, o, lib, time)
    ensures GetOrientation(g, Triggered(g, o, time, draw), lib, time) == GetOrientation(g, o, lib, time)
  {
    var r := Triggered(g, o, time, draw);
    if r != o {
      PoseBeforeStart(g, r, lib, time);
    }
  }

  /** Whether `update` at `time` runs `trigger`. */
  predicate Due(g: GridInfo, lastAnimTime: real, time: real)
  {
    time - lastAnimTime > g.transitionDelay
  }

  // ---------------------------------------------------------------------
  // The palette generator
  // ---------------------------------------------------------------------

  const H_RANGE: real := 1.0
  const MIN_RANGE: real := 0.3
  const MAX_RANGE: real := 0.55

  /** The position i / 8 of entry i along the palette. */
  function PaletteT(i: nat): real
  {
    i as real / PALETTE_LEN as real
  }

  /** The input x_i = lerp(0.3, 0.55, i / 8) of `curve` for entry i. */
  function ShapeInput(i: nat): real
  {
    Lerp(MIN_RANGE, MAX_RANGE, PaletteT(i))
  }

  /** The hue of entry i: lerp(h_init, h_init + 1, i / 8) % 1. */
  function Hue(hInit: real, i: nat): real
  {
    FRem(Lerp(hInit, hInit + H_RANGE, PaletteT(i)), 1.0)
  }

  /** `curve`: (sin(x pi/2)^1.2, cos(x pi/2)^1.2). */
  function Curve(lib: MathLib, x: real): (real, real)
  {
    var t := x * FRAC_PI_2;
    (lib.powf(lib.sin(t), 1.2), lib.powf(lib.cos(t), 1.2))
  }

  /** `palette`: eight colours along a hue sweep starting at `hInit`;
      `hsv` is the Okhsl-to-linear-sRGB conversion. */
  function Palette(lib: MathLib, hsv: (real, real, real) -> LinSrgb, hInit: real): (p: seq<LinSrgb>)
    ensures |p| == PALETTE_LEN
  {
    seq(PALETTE_LEN, i requires 0 <= i < PALETTE_LEN =>
      var c := Curve(lib, ShapeInput(i));
      hsv(Hue(hInit, i), c.0 * 1.2, c.1 * 0.8))
  }

  /** Hue i is the fractional part of h_init + i/8, so it lies in [0, 1). */
  lemma HueIsFraction(hInit: real, i: nat)
    requires 0.0 <= hInit < 1.0 && i < PALETTE_LEN
    ensures Hue(hInit, i) == if hInit + PaletteT(i) < 1.0 then hInit + PaletteT(i) else hInit + PaletteT(i) - 1.0
    ensures 0.0 <= Hue(hInit, i) < 1.0
  {
    var t := PaletteT(i);
    assert 0.0 <= t < 1.0;
    assert Lerp(hInit, hInit + H_RANGE, t) == hInit + t;
    if hInit + t < 1.0 {
      assert Trunc(hInit + t) == 0;
    } else {
      assert Trunc(hInit + t) == 1;
    }
  }

  /** Consecutive hues are 1/8 apart modulo 1. */
  lemma HueStep(hInit: real, i: nat)
    requires 0.0 <= hInit < 1.0 && i + 1 < PALETTE_LEN
    ensures Hue(hInit, i + 1) - Hue(hInit, i) == 0.125
         || Hue(hInit, i + 1) - Hue(hInit, i) == 0.125 - 1.0
  {
    HueIsFraction(hInit, i);
    HueIsFraction(hInit, i + 1);
  }

  /** The shape inputs rise strictly from 0.3 and stay below 0.55. */
  lemma ShapeInputIncreasing(i: nat, j: nat)
    requires i < j < PALETTE_LEN
    ensures MIN_RANGE <= ShapeInput(i) < ShapeInput(j) < MAX_RANGE
  {
    assert PaletteT(i) < PaletteT(j) < 1.0;
  }

  // ---------------------------------------------------------------------
  // The model of sketch.rs
  // ---------------------------------------------------------------------

  /** The model of the library build: two palettes, the grid, the objects
      and the two watermarks. Its `update` has no palette swap. */
  class Model {
    var palette: seq<LinSrgb>
    var grid: GridInfo
    var objects: array<SemiCircle>
    var lastAnimTime: real
    var lastPSwapTime: real
    var newPalette: seq<LinSrgb>

    ghost predicate Valid()
      reads this, objects
    {
      && |palette| == PALETTE_LEN && |newPalette| == PALETTE_LEN
      && WellFormed(grid)
      && forall j :: 0 <= j < objects.Length ==> Placed(grid, objects[j])
    }

    /** `Model::new` for a window of the given size. */
    constructor (width: real, height: real, lib: MathLib, hsv: (real, real, real) -> LinSrgb,
                 hInit: real, hInitNext: real, draws: seq<Draw>, picks: seq<nat>)
      requires width > 0.0 && height >= 0.0
      requires DrawsFit(GridNew(width, height), PALETTE_LEN, draws)
      requires ShufflePicks(picks, |draws|)
      ensures Valid() && fresh(objects)
      ensures grid == GridNew(width, height)
      ensures palette == Palette(lib, hsv, hInit) && newPalette == Palette(lib, hsv, hInitNext)
      ensures lastAnimTime == 0.0 && lastPSwapTime == 0.0
      ensures multiset(objects[..]) == multiset(Layout(grid, draws))
      ensures forall j :: 0 <= j < objects.Length ==> objects[j].transition == None
    {
      var g := GridNew(width, height);
      var objs := NewObjects(g, PALETTE_LEN, draws, picks);
      palette := Palette(lib, hsv, hInit);
      objects := objs;
      grid := g;
      lastAnimTime := 0.0;
      lastPSwapTime := 0.0;
      newPalette := Palette(lib, hsv, hInitNext);
    }

    /** `update`: finalise stale transitions, then trigger once per
      `transition_delay`. */
    method Update(time: real, draw: TriggerDraw)
      requires Valid()
      requires Due(grid, lastAnimTime, time) ==> draw.index < objects.Length
      requires draw.direction < 4
      modifies this`lastAnimTime, objects
      ensures Valid()
      ensures lastAnimTime == if Due(grid, old(lastAnimTime), time) then time else old(lastAnimTime)
      ensures forall j :: 0 <= j < objects.Length && !(Due(grid, old(lastAnimTime), time) && j == draw.index) ==>
        objects[j] == Settle(grid, old(objects[j]), time)
      ensures Due(grid, old(lastAnimTime), time) ==>
        objects[draw.index] == Triggered(grid, Settle(grid, old(objects[draw.index]), time), time, draw)
    {
      FinaliseStale(objects, grid, time);
      forall j | 0 <= j < objects.Length
        ensures Placed(grid, objects[j])
      {
        SettleKeepsPlaced(grid, old(objects[j]), time);
      }
      if time - lastAnimTime > grid.transitionDelay {
        ghost var settled := objects[draw.index];
        Trigger(objects, grid, time, draw);
        TriggeredKeepsPlaced(grid, settled, time, draw);
        lastAnimTime := time;
      }
    }
  }
}
