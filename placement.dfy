/**
 * Where the client puts a new note: the first cell of a 170-pixel grid,
 * scanned row by row, that is clear of every existing note, then up to 50
 * random candidates, then (100, 100).
 *
 * Sizes are whole pixels. The random candidates are an input sequence
 * standing for the successive `Math.random` draws.
 */
module Placement {
  import opened Wrappers

  const Padding := 20
  const PresentW := 150
  const PresentH := 150
  const CellW := PresentW + Padding
  const CellH := PresentH + Padding
  /** How many random candidates are tried at most. */
  const RandomTries := 50

  datatype Spot = Spot(x: int, y: int)

  /** The fallback when nothing fits. */
  const LastResort := Spot(100, 100)

  /** An existing note as fetched from the server; a coordinate may be missing. */
  datatype Placed = Placed(x: Option<int>, y: Option<int>)

  /** `p.x || 0`: a missing or zero coordinate reads as 0. */
  function OrZero(c: Option<int>): int {
    if c.Some? then c.value else 0
  }

  function Abs(n: int): nat {
    if n < 0 then -n else n
  }

  function Max(a: int, b: int): int {
    if a < b then b else a
  }

  /** A note drawn at (`x`, `y`) would overlap `p`. */
  predicate Near(p: Placed, x: int, y: int) {
    Abs(OrZero(p.x) - x) < PresentW && Abs(OrZero(p.y) - y) < PresentH
  }

  /** Some existing note is near (`x`, `y`). */
  ghost predicate Overlapping(existing: seq<Placed>, x: int, y: int) {
    exists i :: 0 <= i < |existing| && Near(existing[i], x, y)
  }

  /** The number of whole cells that fit in `extent`, but at least one. */
  function CellCount(extent: nat): (n: nat)
    ensures n >= 1
    ensures extent >= CellW ==> n * CellW <= extent < (n + 1) * CellW
    ensures extent < CellW ==> n == 1
  {
    Max(1, extent / CellW)
  }

  /** The top-left corner of the cell in row `r`, column `c`. */
  function CellSpot(r: nat, c: nat): Spot {
    Spot(c * CellW + Padding / 2, r * CellH + Padding / 2)
  }

  ghost predicate Occupied(existing: seq<Placed>, r: nat, c: nat) {
    Overlapping(existing, CellSpot(r, c).x, CellSpot(r, c).y)
  }

  /** Cell (`r1`, `c1`) comes before cell (`r2`, `c2`) in row-major order. */
  predicate Before(r1: nat, c1: nat, r2: nat, c2: nat) {
    r1 < r2 || (r1 == r2 && c1 < c2)
  }

  /** The first free cell at or after (`r`, `c`) in row-major order, if any. */
  ghost function FirstFreeCell(existing: seq<Placed>, rows: nat, cols: nat, r: nat, c: nat): (found: Option<(nat, nat)>)
    requires c <= cols
    decreases rows - r, cols - c
    ensures found.Some? ==> found.value.0 < rows && found.value.1 < cols
  {
    if r >= rows then None
    else if c == cols then FirstFreeCell(existing, rows, cols, r + 1, 0)
    else if !Occupied(existing, r, c) then Some((r, c))
    else FirstFreeCell(existing, rows, cols, r, c + 1)
  }

  /**
   * The cell found is free, at or after (`r`, `c`), and every cell from
   * (`r`, `c`) up to it is occupied; nothing is found exactly when every cell
   * from (`r`, `c`) on is occupied.
   */
  lemma {:induction false} FirstFreeCellIsFirst(existing: seq<Placed>, rows: nat, cols: nat, r: nat, c: nat)
    requires c <= cols
    decreases rows - r, cols - c
    ensures var found := FirstFreeCell(existing, rows, cols, r, c);
      && (found.Some? ==>
            && !Before(found.value.0, found.value.1, r, c)
            && !Occupied(existing, found.value.0, found.value.1)
            && forall r': nat, c': nat ::
                 (r' < rows && c' < cols && !Before(r', c', r, c) && Before(r', c', found.value.0, found.value.1))
                 ==> Occupied(existing, r', c'))
      && (found.None? ==>
            forall r': nat, c': nat :: r' < rows && c' < cols && !Before(r', c', r, c) ==> Occupied(existing, r', c'))
  {
    if r >= rows {
    } else if c == cols {
      FirstFreeCellIsFirst(existing, rows, cols, r + 1, 0);
    } else if Occupied(existing, r, c) {
      FirstFreeCellIsFirst(existing, rows, cols, r, c + 1);
    }
  }

  /** The candidates the random phase gets to try: the first 50. */
  function Tried(candidates: seq<Spot>): (tried: seq<Spot>)
    ensures |tried| <= RandomTries
    ensures tried <= candidates
    ensures |candidates| <= RandomTries ==> tried == candidates
  {
    if |candidates| <= RandomTries then candidates else candidates[..RandomTries]
  }

  /** The index of the first candidate at or after `i` that is clear of every note, if any. */
  ghost function FirstFreeCandidate(existing: seq<Placed>, tried: seq<Spot>, i: nat): (found: Option<nat>)
    requires i <= |tried|
    decreases |tried| - i
    ensures found.Some? ==> i <= found.value < |tried|
  {
    if i == |tried| then None
    else if !Overlapping(existing, tried[i].x, tried[i].y) then Some(i)
    else FirstFreeCandidate(existing, tried, i + 1)
  }

  /**
   * The candidate found is clear of every note and every candidate from `i`
   * up to it overlaps one; nothing is found exactly when all from `i` on overlap.
   */
  lemma {:induction false} FirstFreeCandidateIsFirst(existing: seq<Placed>, tried: seq<Spot>, i: nat)
    requires i <= |tried|
    decreases |tried| - i
    ensures var found := FirstFreeCandidate(existing, tried, i);
      && (found.Some? ==>
            && !Overlapping(existing, tried[found.value].x, tried[found.value].y)
            && forall j :: i <= j < found.value ==> Overlapping(existing, tried[j].x, tried[j].y))
      && (found.None? ==>
            forall j :: i <= j < |tried| ==> Overlapping(existing, tried[j].x, tried[j].y))
  {
    if i < |tried| && Overlapping(existing, tried[i].x, tried[i].y) {
      FirstFreeCandidateIsFirst(existing, tried, i + 1);
    }
  }

  /** The grid size for the larger of the container's and the window's extent. */
  function GridSize(clientW: nat, innerW: nat, clientH: nat, innerH: nat): (rc: (nat, nat)) {
    (CellCount(Max(clientH, innerH)), CellCount(Max(clientW, innerW)))
  }

  /** The position `computeFreePosition` settles on. */
  ghost function FreePosition(existing: seq<Placed>, clientW: nat, innerW: nat, clientH: nat, innerH: nat,
                              candidates: seq<Spot>): Spot
  {
    var (rows, cols) := GridSize(clientW, innerW, clientH, innerH);
    match FirstFreeCell(existing, rows, cols, 0, 0)
    case Some((r, c)) => CellSpot(r, c)
    case None =>
      match FirstFreeCandidate(existing, Tried(candidates), 0)
      case Some(k) => Tried(candidates)[k]
      case None => LastResort
  }

  /** `overlaps(x, y)`: scan the existing notes, stopping at the first one near (`x`, `y`). */
  method Overlaps(existing: seq<Placed>, x: int, y: int) returns (hit: bool)
    ensures hit <==> Overlapping(existing, x, y)
  {
    var i := 0;
    while i < |existing|
      invariant 0 <= i <= |existing|
      invariant forall j :: 0 <= j < i ==> !Near(existing[j], x, y)
    {
      var px := OrZero(existing[i].x);
      var py := OrZero(existing[i].y);
      if Abs(px - x) < PresentW && Abs(py - y) < PresentH {
        return true;
      }
      i := i + 1;
    }
    return false;
  }

  /** `computeFreePosition(container, existing)`. */
  method ComputeFreePosition(existing: seq<Placed>, clientW: nat, innerW: nat, clientH: nat, innerH: nat,
                             candidates: seq<Spot>)
    returns (x: int, y: int)
    ensures Spot(x, y) == FreePosition(existing, clientW, innerW, clientH, innerH, candidates)
  {
    var width := Max(clientW, innerW);
    var height := Max(clientH, innerH);
    var cols := CellCount(width);
    var rows := CellCount(height);
    ghost var first := FirstFreeCell(existing, rows, cols, 0, 0);
    var r := 0;
    while r < rows
      invariant r <= rows
      invariant first == FirstFreeCell(existing, rows, cols, r, 0)
    {
      var c := 0;
      while c < cols
        invariant c <= cols
        invariant first == FirstFreeCell(existing, rows, cols, r, c)
      {
        x := c * CellW + Padding / 2;
        y := r * CellH + Padding / 2;
        var hit := Overlaps(existing, x, y);
        if !hit {
          return;
        }
        c := c + 1;
      }
      r := r + 1;
    }
    ghost var tried := Tried(candidates);
    ghost var pick := FirstFreeCandidate(existing, tried, 0);
    var i := 0;
    while i < RandomTries && i < |candidates|
      invariant i <= |tried|
      invariant pick == FirstFreeCandidate(existing, tried, i)
    {
      x, y := candidates[i].x, candidates[i].y;
      var hit := Overlaps(existing, x, y);
      if !hit {
        return;
      }
      i := i + 1;
    }
    x, y := LastResort.x, LastResort.y;
  }

  /** Only the last resort may overlap an existing note. */
  lemma OnlyLastResortOverlaps(existing: seq<Placed>, clientW: nat, innerW: nat, clientH: nat, innerH: nat,
                               candidates: seq<Spot>)
    ensures var p := FreePosition(existing, clientW, innerW, clientH, innerH, candidates);
            Overlapping(existing, p.x, p.y) ==> p == LastResort
  {
    var (rows, cols) := GridSize(clientW, innerW, clientH, innerH);
    FirstFreeCellIsFirst(existing, rows, cols, 0, 0);
    FirstFreeCandidateIsFirst(existing, Tried(candidates), 0);
  }

  /**
   * A grid answer is the cell `(c * 170 + 10, r * 170 + 10)` of the grid,
   * free, with every earlier cell in row-major order occupied.
   */
  lemma GridAnswerIsFirstFreeCell(existing: seq<Placed>, clientW: nat, innerW: nat, clientH: nat, innerH: nat,
                                  candidates: seq<Spot>)
    requires FirstFreeCell(existing, GridSize(clientW, innerW, clientH, innerH).0,
                           GridSize(clientW, innerW, clientH, innerH).1, 0, 0).Some?
    ensures var (rows, cols) := GridSize(clientW, innerW, clientH, innerH);
      exists r: nat, c: nat {:trigger CellSpot(r, c)} ::
        && r < rows && c < cols
        && FreePosition(existing, clientW, innerW, clientH, innerH, candidates) == CellSpot(r, c)
        && CellSpot(r, c) == Spot(c * 170 + 10, r * 170 + 10)
        && !Occupied(existing, r, c)
        && forall r': nat, c': nat :: r' < rows && c' < cols && Before(r', c', r, c) ==> Occupied(existing, r', c')
  {
    var (rows, cols) := GridSize(clientW, innerW, clientH, innerH);
    FirstFreeCellIsFirst(existing, rows, cols, 0, 0);
    var (r, c) := FirstFreeCell(existing, rows, cols, 0, 0).value;
    assert CellSpot(r, c) == Spot(c * 170 + 10, r * 170 + 10);
  }

  /** On an empty board the note goes to the top-left cell, (10, 10). */
  lemma EmptyBoardTakesFirstCell(clientW: nat, innerW: nat, clientH: nat, innerH: nat, candidates: seq<Spot>)
    ensures FreePosition([], clientW, innerW, clientH, innerH, candidates) == Spot(10, 10)
  {
  }

  /** A draw of the random phase: `Math.floor(Math.random() * Math.max(50, extent - 150))` on each axis. */
  predicate RandomDraw(width: int, height: int, s: Spot) {
    0 <= s.x < Max(50, width - PresentW) && 0 <= s.y < Max(50, height - PresentH)
  }

  /**
   * When the grid is full, the answer is one of the first 50 candidates, free
   * and preceded only by overlapping ones, or else the last resort.
   */
  lemma RandomPhaseTriesFirstFifty(existing: seq<Placed>, clientW: nat, innerW: nat, clientH: nat, innerH: nat,
                                   candidates: seq<Spot>)
    requires FirstFreeCell(existing, GridSize(clientW, innerW, clientH, innerH).0,
                           GridSize(clientW, innerW, clientH, innerH).1, 0, 0).None?
    ensures var p := FreePosition(existing, clientW, innerW, clientH, innerH, candidates);
      || (exists k :: 0 <= k < RandomTries && k < |candidates| && p == candidates[k] &&
           !Overlapping(existing, p.x, p.y) &&
           forall j :: 0 <= j < k ==> Overlapping(existing, candidates[j].x, candidates[j].y))
      || (p == LastResort &&
          forall j :: 0 <= j < RandomTries && j < |candidates| ==>
            Overlapping(existing, candidates[j].x, candidates[j].y))
    ensures (forall j :: 0 <= j < |candidates| ==>
               RandomDraw(Max(clientW, innerW), Max(clientH, innerH), candidates[j])) ==>
      var p := FreePosition(existing, clientW, innerW, clientH, innerH, candidates);
      p == LastResort || RandomDraw(Max(clientW, innerW), Max(clientH, innerH), p)
  {
    var tried := Tried(candidates);
    FirstFreeCandidateIsFirst(existing, tried, 0);
    match FirstFreeCandidate(existing, tried, 0)
    case Some(k) =>
      assert tried[k] == candidates[k];
      forall j | 0 <= j < k ensures Overlapping(existing, candidates[j].x, candidates[j].y) {
        assert tried[j] == candidates[j];
      }
    case None =>
      forall j | 0 <= j < RandomTries && j < |candidates|
        ensures Overlapping(existing, candidates[j].x, candidates[j].y)
      {
        assert tried[j] == candidates[j];
      }
  }
}
