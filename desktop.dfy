/** The desktop binary of src/main.rs. Its grid, objects, transitions and
    palette generator are the ones of module Sketch, repeated there line
    for line. Its own are the `Model` struct (with a window id, not
    modelled), the `model` constructor that opens the window, and an
    `update` that adds the scheduled palette swap. */
module Desktop {
  import opened Easing
  import opened Sketch

  /** Seconds between two palette cuts. */
  const SWAP_SPACING: real := 60.0

  /** Length of the window before a cut in which entries are copied one by one. */
  const SWAP_TIME: real := 2.0

  /** The saturating `as usize` cast of an integral float: negative values
      become 0. (The upper saturation at usize::MAX never matters here: the
      index is only compared with PALETTE_LEN.) */
  function AsUsize(i: int): nat
  {
    if i < 0 then 0 else i
  }

  /** The palette index written `secondsLeft` seconds before a cut:
      floor((1 - secondsLeft / 2) * 8) as usize. */
  function SwapIndex(secondsLeft: real): nat
  {
    var f := (1.0 - secondsLeft / SWAP_TIME) * PALETTE_LEN as real;
    AsUsize(f.Floor)
  }

  /** Within the window the cast never saturates, and the index is
      k exactly during the k-th quarter second: entries tick over evenly,
      one per eighth of the window, starting with entry 0. */
  lemma SwapIndexSchedule(secondsLeft: real, k: nat)
    requires secondsLeft <= SWAP_TIME && k < PALETTE_LEN
    ensures SwapIndex(secondsLeft) == ((1.0 - secondsLeft / SWAP_TIME) * PALETTE_LEN as real).Floor
    ensures SwapIndex(secondsLeft) == k
        <==> SWAP_TIME - (k + 1) as real * 0.25 < secondsLeft <= SWAP_TIME - k as real * 0.25
  {
    var f := (1.0 - secondsLeft / SWAP_TIME) * PALETTE_LEN as real;
    assert f == 8.0 - 4.0 * secondsLeft;
    assert f >= 0.0;
  }

  /** Within the window an entry is written exactly while the cut is still
      ahead; from the cut on the index is 8 or more and nothing is written. */
  lemma SwapIndexWrites(secondsLeft: real)
    requires secondsLeft <= SWAP_TIME
    ensures SwapIndex(secondsLeft) < PALETTE_LEN <==> secondsLeft > 0.0
    ensures secondsLeft == SWAP_TIME ==> SwapIndex(secondsLeft) == 0
  {
    var f := (1.0 - secondsLeft / SWAP_TIME) * PALETTE_LEN as real;
    assert f == 8.0 - 4.0 * secondsLeft;
  }

  /** As time advances through the window (fewer seconds left) the index
      never goes back. */
  lemma SwapIndexMonotone(later: real, earlier: real)
    requires later <= earlier <= SWAP_TIME
    ensures SwapIndex(earlier) <= SwapIndex(later)
  {
    var f1 := (1.0 - earlier / SWAP_TIME) * PALETTE_LEN as real;
    var f2 := (1.0 - later / SWAP_TIME) * PALETTE_LEN as real;
    assert f1 == 8.0 - 4.0 * earlier && f2 == 8.0 - 4.0 * later;
    assert f1 <= f2;
  }

  /** The palette after the pre-swap write `secondsLeft` seconds before the
      cut: entry u of the next palette is copied when 0 <= u < 8. */
  function PreSwap(palette: seq<LinSrgb>, newPalette: seq<LinSrgb>, secondsLeft: real): (p: seq<LinSrgb>)
    requires |palette| == PALETTE_LEN && |newPalette| == PALETTE_LEN
    ensures |p| == PALETTE_LEN
    ensures forall j :: 0 <= j < PALETTE_LEN ==>
      p[j] == if secondsLeft <= SWAP_TIME && j == SwapIndex(secondsLeft) then newPalette[j] else palette[j]
  {
    if secondsLeft <= SWAP_TIME then
      var u := SwapIndex(secondsLeft);
      if !(u >= PALETTE_LEN) then palette[u := newPalette[u]] else palette
    else palette
  }

  /** Strictly before the cut, each frame of the window copies exactly one
      entry, the current index, from the next palette; the others stay. */
  lemma PreSwapSweep(palette: seq<LinSrgb>, newPalette: seq<LinSrgb>, secondsLeft: real, j: nat)
    requires |palette| == PALETTE_LEN && |newPalette| == PALETTE_LEN
    requires 0.0 < secondsLeft <= SWAP_TIME && j < PALETTE_LEN
    ensures SwapIndex(secondsLeft) < PALETTE_LEN
    ensures PreSwap(palette, newPalette, secondsLeft)[j]
         == if j == SwapIndex(secondsLeft) then newPalette[j] else palette[j]
  {
    SwapIndexWrites(secondsLeft);
  }

  /** The model of the desktop binary. Its fields are those of the library
      build (the window id is not modelled). */
  class Model {
    var palette: seq<LinSrgb>
    var grid: GridInfo
    var objects: array<SemiCircle>
    var lastAnimTime: real
    var lastPSwapTime: real
    var newPalette: seq<LinSrgb>

    ghost predicate Valid()
      reads this, objects
    {
      && |palette| == PALETTE_LEN && |newPalette| == PALETTE_LEN
      && WellFormed(grid)
      && forall j :: 0 <= j < objects.Length ==> Placed(grid, objects[j])
    }

    /** `model`: the grid for the window, two palettes and the objects. */
    constructor (width: real, height: real, lib: MathLib, hsv: (real, real, real) -> LinSrgb,
                 hInit: real, hInitNext: real, draws: seq<Draw>, picks: seq<nat>)
      requires width > 0.0 && height >= 0.0
      requires DrawsFit(GridNew(width, height), PALETTE_LEN, draws)
      requires ShufflePicks(picks, |draws|)
      ensures Valid() && fresh(objects)
      ensures grid == GridNew(width, height)
      ensures palette == Palette(lib, hsv, hInit) && newPalette == Palette(lib, hsv, hInitNext)
      ensures lastAnimTime == 0.0 && lastPSwapTime == 0.0
      ensures multiset(objects[..]) == multiset(Layout(grid, draws))
      ensures forall j :: 0 <= j < objects.Length ==> objects[j].transition == None
    {
      var g := GridNew(width, height);
      var objs := NewObjects(g, PALETTE_LEN, draws, picks);
      palette := Palette(lib, hsv, hInit);
      objects := objs;
      grid := g;
      lastAnimTime := 0.0;
      lastPSwapTime := 0.0;
      newPalette := Palette(lib, hsv, hInitNext);
    }

    /** `update`: finalise stale transitions, trigger once per
        `transition_delay`, copy one entry of the next palette in the two
        seconds before a cut, and cut to the next palette every 60 s.
        `hInit` is the hue drawn by `palette()` for the palette after next. */
    method Update(time: real, draw: TriggerDraw, lib: MathLib, hsv: (real, real, real) -> LinSrgb, hInit: real)
      requires Valid()
      requires Due(grid, lastAnimTime, time) ==> draw.index < objects.Length
      requires draw.direction < 4
      modifies this`lastAnimTime, this`palette, this`newPalette, this`lastPSwapTime, objects
      ensures Valid()
      ensures lastAnimTime == if Due(grid, old(lastAnimTime), time) then time else old(lastAnimTime)
      ensures forall j :: 0 <= j < objects.Length && !(Due(grid, old(lastAnimTime), time) && j == draw.index) ==>
        objects[j] == Settle(grid, old(objects[j]), time)
      ensures Due(grid, old(lastAnimTime), time) ==>
        objects[draw.index] == Triggered(grid, Settle(grid, old(objects[draw.index]), time), time, draw)
      ensures old(lastPSwapTime) + SWAP_SPACING <= time ==>
        && palette == old(newPalette)
        && newPalette == Palette(lib, hsv, hInit)
        && lastPSwapTime == time
      ensures !(old(lastPSwapTime) + SWAP_SPACING <= time) ==>
        && palette == PreSwap(old(palette), old(newPalette), old(lastPSwapTime) + SWAP_SPACING - time)
        && newPalette == old(newPalette)
        && lastPSwapTime == old(lastPSwapTime)
    {
      FinaliseStale(objects, grid, time);
      forall j | 0 <= j < objects.Length
        ensures Placed(grid, objects[j])
      {
        SettleKeepsPlaced(grid, old(objects[j]), time);
      }
      if time - lastAnimTime > grid.transitionDelay {
        ghost var settled := objects[draw.index];
        Trigger(objects, grid, time, draw);
        TriggeredKeepsPlaced(grid, settled, time, draw);
        lastAnimTime := time;
      }

      // just before the swap
      var secondsLeftUntil := lastPSwapTime + SWAP_SPACING - time;
      if secondsLeftUntil <= SWAP_TIME {
        var f := (1.0 - secondsLeftUntil / SWAP_TIME) * PALETTE_LEN as real;
        var u := AsUsize(f.Floor);
        if !(u >= PALETTE_LEN) {
          palette := palette[u := newPalette[u]];
        }
      }

      if lastPSwapTime + SWAP_SPACING <= time {
        palette := newPalette;
        newPalette := Palette(lib, hsv, hInit);
        lastPSwapTime := time;
      }
    }
  }
}
