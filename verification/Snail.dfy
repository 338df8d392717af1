/**
  The "snail" of homework01_arrays: one loop walks a clockwise spiral over a flat n-by-n array.

  `Value` defines the spiral ring by ring, `Place` is its inverse, and `FourthTask` is the loop.
  The loop's float counter j takes the values n, n-1/2, ..., 1; the model counts h = 2*j.
 */
module Snail {

  /** The number of cells of the n-by-n square, ring by ring. */
  function Cells(n: nat): nat {
    if n <= 1 then n else 4 * (n - 1) + Cells(n - 2)
  }

  lemma {:induction false} CellsIsSquare(n: nat)
    ensures Cells(n) == n * n
  {
    if n >= 2 {
      CellsIsSquare(n - 2);
      assert n * n == 4 * (n - 1) + (n - 2) * (n - 2);
    }
  }

  /** The number in row r, column c: the outer ring clockwise from the top left corner, then the
      spiral of size n-2 inside it. */
  function Value(n: nat, r: int, c: int): (v: int)
    requires 0 <= r < n && 0 <= c < n
    ensures 1 <= v <= Cells(n)
  {
    if r == 0 then c + 1
    else if c == n - 1 then n + r
    else if r == n - 1 then 3 * n - 2 - c
    else if c == 0 then 4 * n - 3 - r
    else 4 * (n - 1) + Value(n - 2, r - 1, c - 1)
  }

  datatype Cell = Cell(row: int, col: int) {
    predicate In(n: nat) { 0 <= row < n && 0 <= col < n }
    function Move(d: Cell): Cell { Cell(row + d.row, col + d.col) }
    function Index(n: nat): int { row * n + col }
  }

  /** The cell that holds the number m. */
  function Place(n: nat, m: int): (p: Cell)
    requires 1 <= m <= Cells(n)
    ensures p.In(n)
  {
    if m <= n then Cell(0, m - 1)
    else if m <= 2 * n - 1 then Cell(m - n, n - 1)
    else if m <= 3 * n - 2 then Cell(n - 1, 3 * n - 2 - m)
    else if m <= 4 * n - 4 then Cell(4 * n - 3 - m, 0)
    else Place(n - 2, m - 4 * (n - 1)).Move(Cell(1, 1))
  }

  /** `Place` and `Value` are inverse to each other, so the cells and the numbers 1..n*n correspond. */
  lemma {:induction false} ValueOfPlace(n: nat, m: int)
    requires 1 <= m <= Cells(n)
    ensures Value(n, Place(n, m).row, Place(n, m).col) == m
  {
    if n > 1 && m > 4 * (n - 1) {
      ValueOfPlace(n - 2, m - 4 * (n - 1));
      PlaceInner(n, m);
      var p := Place(n - 2, m - 4 * (n - 1));
      ValueInner(n, p.row + 1, p.col + 1);
    } else {
      RingValueOfPlace(n, m);
    }
  }

  lemma RingValueOfPlace(n: nat, m: int)
    requires 1 <= m <= Cells(n) && (n == 1 || m <= 4 * (n - 1))
    ensures Value(n, Place(n, m).row, Place(n, m).col) == m
  {
  }

  lemma ValueInner(n: nat, r: int, c: int)
    requires 0 < r < n - 1 && 0 < c < n - 1
    ensures Value(n, r, c) == 4 * (n - 1) + Value(n - 2, r - 1, c - 1)
  {
  }

  lemma {:induction false} PlaceOfValue(n: nat, r: int, c: int)
    requires 0 <= r < n && 0 <= c < n
    ensures Place(n, Value(n, r, c)) == Cell(r, c)
  {
    var v := Value(n, r, c);
    if 0 < r < n - 1 && 0 < c < n - 1 {
      PlaceOfValue(n - 2, r - 1, c - 1);
      PlaceInner(n, v);
    } else {
      assert v <= 4 * n - 4 || n == 1;
    }
  }

  lemma PlaceInner(n: nat, m: int)
    requires n >= 2 && 4 * (n - 1) < m <= Cells(n)
    ensures Place(n, m) == Place(n - 2, m - 4 * (n - 1)).Move(Cell(1, 1))
  {
  }

  /** The first number of segment h: the walk runs through segments 2n, 2n-1, ..., 2, and segment g
      has g/2 cells. */
  function SegmentStart(n: nat, h: nat): (m: int)
    ensures m >= 1
    decreases 2 * n - h
  {
    if h >= 2 * n then 1 else SegmentStart(n, h + 1) + (h + 1) / 2
  }

  /** Segments 1..h have (h/2)*((h+1)/2) cells in all. */
  lemma {:induction false} SegmentsCover(n: nat)
    ensures n >= 1 ==> SegmentStart(n, 1) == Cells(n) + 1
  {
    if n >= 1 { RingStarts(n); }
    if n >= 3 {
      SegmentsCover(n - 2);
      InnerStart(n, 1);
    }
  }

  lemma {:induction false} SegmentsInRange(n: nat, h: nat)
    requires 1 <= h <= 2 * n
    ensures SegmentStart(n, h) + h / 2 <= Cells(n) + 1
    ensures SegmentStart(n, h) + h / 2 == SegmentStart(n, h - 1)
    decreases h
  {
    if h == 1 {
      SegmentsCover(n);
    } else {
      SegmentsInRange(n, h - 1);
    }
  }

  /** The segments of the outer ring. */
  lemma RingStarts(n: nat)
    requires n >= 1
    ensures SegmentStart(n, 2 * n) == 1
    ensures SegmentStart(n, 2 * n - 1) == n + 1
    ensures SegmentStart(n, 2 * n - 2) == 2 * n
    ensures n >= 2 ==> SegmentStart(n, 2 * n - 3) == 3 * n - 1
    ensures n >= 2 ==> SegmentStart(n, 2 * n - 4) == 4 * n - 3
  {
    assert SegmentStart(n, 2 * n - 1) == SegmentStart(n, 2 * n) + n;
    assert SegmentStart(n, 2 * n - 2) == SegmentStart(n, 2 * n - 1) + (n - 1);
  }

  /** The inner segments are those of the smaller spiral, after the outer ring's numbers. */
  lemma {:induction false} InnerStart(n: nat, h: nat)
    requires n >= 2 && h <= 2 * (n - 2)
    ensures SegmentStart(n, h) == SegmentStart(n - 2, h) + 4 * (n - 1)
    decreases 2 * n - h
  {
    if h == 2 * (n - 2) {
      RingStarts(n);
    } else {
      InnerStart(n, h + 1);
    }
  }

  /** The direction of segment h: right, down, left, up. */
  function Direction(n: nat, h: nat): Cell {
    var sign := if ((h + 1) / 2) % 2 == n % 2 then 1 else -1;
    if h % 2 == 0 then Cell(0, sign) else Cell(sign, 0)
  }

  lemma RingDirections(n: nat)
    requires n >= 2
    ensures Direction(n, 2 * n) == Cell(0, 1) && Direction(n, 2 * n - 1) == Cell(1, 0)
    ensures Direction(n, 2 * n - 2) == Cell(0, -1) && Direction(n, 2 * n - 3) == Cell(-1, 0)
    ensures Direction(n, 2 * n - 4) == Cell(0, 1)
  {
  }

  lemma InnerDirection(n: nat, h: nat)
    requires n >= 2
    ensures Direction(n, h) == Direction(n - 2, h)
  {
  }

  /** A number of segment h stands one step in the segment's direction from its predecessor. */
  lemma {:induction false} WalkStep(n: nat, h: nat, m: int)
    requires 2 <= h <= 2 * n && 1 < m <= Cells(n)
    requires SegmentStart(n, h) <= m < SegmentStart(n, h) + h / 2
    ensures Place(n, m) == Place(n, m - 1).Move(Direction(n, h))
    decreases n
  {
    if h > 2 * n - 4 {
      RingWalk(n, h, m);
    } else {
      InnerStart(n, h);
      if m == 4 * (n - 1) + 1 {
        FirstInner(n, h);
        RingStep(n, m);
      } else {
        WalkStep(n - 2, h, m - 4 * (n - 1));
        InnerWalk(n, h, m);
      }
    }
  }

  /** A step of the smaller spiral is a step of the larger one. */
  lemma InnerWalk(n: nat, h: nat, m: int)
    requires n >= 2 && 4 * (n - 1) + 1 < m <= Cells(n)
    requires var k := m - 4 * (n - 1);
             Place(n - 2, k) == Place(n - 2, k - 1).Move(Direction(n - 2, h))
    ensures Place(n, m) == Place(n, m - 1).Move(Direction(n, h))
  {
    var k := m - 4 * (n - 1);
    PlaceInner(n, m);
    PlaceInner(n, m - 1);
    InnerDirection(n, h);
    MovesCommute(Place(n - 2, k - 1), Direction(n - 2, h), Cell(1, 1));
  }

  lemma MovesCommute(p: Cell, d: Cell, e: Cell)
    ensures p.Move(d).Move(e) == p.Move(e).Move(d)
  {
  }

  lemma RingWalk(n: nat, h: nat, m: int)
    requires n > 1 && 2 * n - 4 < h <= 2 * n && 1 < m <= Cells(n)
    requires SegmentStart(n, h) <= m < SegmentStart(n, h) + h / 2
    ensures Place(n, m) == Place(n, m - 1).Move(Direction(n, h))
  {
    RingStarts(n);
    RingDirections(n);
    RingSegment(n, h, m, SegmentStart(n, h));
    RingStep(n, m);
  }

  lemma RingSegment(n: nat, h: nat, m: int, start: int)
    requires n > 1 && 2 * n - 4 < h <= 2 * n && start <= m < start + h / 2 && m > 1
    requires start == if h == 2 * n then 1 else if h == 2 * n - 1 then n + 1
                      else if h == 2 * n - 2 then 2 * n else 3 * n - 1
    ensures h == 2 * n ==> m <= n
    ensures h == 2 * n - 1 ==> n < m <= 2 * n - 1
    ensures h == 2 * n - 2 ==> 2 * n - 1 < m <= 3 * n - 2
    ensures h == 2 * n - 3 ==> 3 * n - 2 < m <= 4 * n - 4
  {
  }

  /** The first inner number belongs to the first inner segment. */
  lemma FirstInner(n: nat, h: nat)
    requires n >= 2 && 2 <= h <= 2 * (n - 2) && SegmentStart(n, h) <= 4 * (n - 1) + 1
    ensures h == 2 * (n - 2) && Direction(n, h) == Cell(0, 1)
  {
    InnerStart(n, h);
    RingDirections(n);
  }

  lemma RingStep(n: nat, m: int)
    requires 1 < m <= Cells(n) && m <= 4 * n - 3
    ensures Place(n, m) == Place(n, m - 1).Move(
                             if m <= n then Cell(0, 1)
                             else if m <= 2 * n - 1 then Cell(1, 0)
                             else if m <= 3 * n - 2 then Cell(0, -1)
                             else if m <= 4 * n - 4 then Cell(-1, 0)
                             else Cell(0, 1))
  {
  }

  predicate ShareEdge(p: Cell, q: Cell) {
    || (p.row == q.row && (p.col == q.col + 1 || q.col == p.col + 1))
    || (p.col == q.col && (p.row == q.row + 1 || q.row == p.row + 1))
  }

  /** Consecutive numbers stand in cells that share an edge. */
  lemma ConsecutiveShareEdge(n: nat, m: int)
    requires 1 < m <= Cells(n)
    ensures ShareEdge(Place(n, m - 1), Place(n, m))
  {
    var h := SegmentOf(n, m, 2 * n);
    WalkStep(n, h, m);
    OneStep(n, h, Place(n, m - 1), Place(n, m));
  }

  lemma OneStep(n: nat, h: nat, p: Cell, q: Cell)
    requires q == p.Move(Direction(n, h))
    ensures ShareEdge(p, q)
  {
  }

  /** The segment that number m belongs to. */
  lemma {:induction false} SegmentOf(n: nat, m: int, top: nat) returns (h: nat)
    requires 1 <= top <= 2 * n && SegmentStart(n, top) <= m <= Cells(n)
    ensures 2 <= h <= top
    ensures SegmentStart(n, h) <= m < SegmentStart(n, h) + h / 2
    decreases top
  {
    SegmentsInRange(n, top);
    if top == 1 { SegmentsCover(n); }
    if m < SegmentStart(n, top) + top / 2 {
      h := top;
    } else {
      h := SegmentOf(n, m, top - 1);
    }
  }

  lemma {:induction false} MulGap(a: int, b: int, n: nat)
    ensures a <= b ==> a * n <= b * n
    ensures a < b ==> a * n + n <= b * n
    decreases b - a
  {
    if a < b {
      MulGap(a + 1, b, n);
      assert (a + 1) * n == a * n + n;
    }
  }

  lemma IndexInRange(n: nat, p: Cell)
    requires p.In(n)
    ensures 0 <= p.Index(n) < n * n
  {
    MulGap(p.row, n, n);
  }

  lemma IndexInjective(n: nat, p: Cell, q: Cell)
    requires p.In(n) && q.In(n) && p.Index(n) == q.Index(n)
    ensures p == q
  {
    MulGap(p.row, q.row, n);
    MulGap(q.row, p.row, n);
  }

  /** The array element that receives the number m. */
  function Target(n: nat, m: int): (i: int)
    requires 1 <= m <= Cells(n)
    ensures 0 <= i < Cells(n)
  {
    IndexInRange(n, Place(n, m));
    CellsIsSquare(n);
    Place(n, m).Index(n)
  }

  /** No two numbers share an array element. */
  lemma TargetInjective(n: nat, m: int, m': int)
    requires 1 <= m <= Cells(n) && 1 <= m' <= Cells(n) && Target(n, m) == Target(n, m')
    ensures m == m'
  {
    IndexInjective(n, Place(n, m), Place(n, m'));
    ValueOfPlace(n, m);
    ValueOfPlace(n, m');
  }

  /** Every array element receives a number: the walk is a permutation of 1..n*n. */
  lemma TargetOnto(n: nat, i: int) returns (m: int)
    requires 0 <= i < n * n
    ensures 1 <= m <= Cells(n) && Target(n, m) == i
  {
    var p := Cell(i / n, i % n);
    IndexOfQuotient(n, i);
    PlaceOfValue(n, p.row, p.col);
    m := Value(n, p.row, p.col);
  }

  lemma IndexOfQuotient(n: nat, i: int)
    requires 0 <= i < n * n
    ensures Cell(i / n, i % n).In(n) && Cell(i / n, i % n).Index(n) == i
  {
    MulGap(n, i / n, n);
  }

  lemma TargetMoves(n: nat, m: int, d: Cell)
    requires 1 < m <= Cells(n) && Place(n, m) == Place(n, m - 1).Move(d)
    ensures Target(n, m) == Target(n, m - 1) + d.Index(n)
  {
    IndexMoves(n, Place(n, m - 1), d);
  }

  lemma IndexMoves(n: nat, p: Cell, d: Cell)
    ensures p.Move(d).Index(n) == p.Index(n) + d.Index(n)
  {
  }

  /** The array stride of a segment, as the loop computes it. */
  function Stride(n: nat, h: nat): int {
    var coef := if h % 2 == 0 then 1 else n;
    if ((h + 1) / 2) % 2 != n % 2 then -coef else coef
  }

  lemma StrideIsDirection(n: nat, h: nat)
    ensures Stride(n, h) == Direction(n, h).Index(n)
  {
  }

  lemma StrideMoves(n: nat, h: nat, m: int)
    requires 2 <= h <= 2 * n && 1 < m <= Cells(n)
    requires SegmentStart(n, h) <= m < SegmentStart(n, h) + h / 2
    ensures Target(n, m) == Target(n, m - 1) + Stride(n, h)
  {
    WalkStep(n, h, m);
    TargetMoves(n, m, Direction(n, h));
    StrideIsDirection(n, h);
  }

  lemma InSegment(n: nat, h: nat, k: nat)
    requires 2 <= h <= 2 * n && k < h / 2
    ensures 1 <= SegmentStart(n, h) && SegmentStart(n, h) + k <= Cells(n)
  {
    SegmentsInRange(n, h);
  }

  /** The numbers from start + 1 to start + k stand coef elements behind their predecessors. */
  ghost predicate Apart(n: nat, start: int, k: nat, coef: int)
    requires 1 <= start && start + k <= Cells(n)
  {
    forall m :: start < m <= start + k ==> Target(n, m) == Target(n, m - 1) + coef
  }

  lemma {:induction false} ApartTargets(n: nat, start: int, k: nat, coef: int)
    requires 1 <= start && start + k <= Cells(n) && Apart(n, start, k, coef)
    ensures Target(n, start + k) == Target(n, start) + k * coef
  {
    if k > 0 {
      ApartTargets(n, start, k - 1, coef);
      OneStrideMore(Target(n, start), Target(n, start + k - 1), Target(n, start + k), k, coef);
    }
  }

  lemma SegmentApart(n: nat, h: nat, k: nat)
    requires 2 <= h <= 2 * n && k < h / 2
    ensures 1 <= SegmentStart(n, h) && SegmentStart(n, h) + k <= Cells(n)
    ensures Apart(n, SegmentStart(n, h), k, Stride(n, h))
  {
    InSegment(n, h, k);
    var start := SegmentStart(n, h);
    forall m | start < m <= start + k
      ensures Target(n, m) == Target(n, m - 1) + Stride(n, h)
    {
      StrideMoves(n, h, m);
    }
  }

  /** The elements of a segment are a stride apart. */
  lemma SegmentTargets(n: nat, h: nat, start: int, k: nat)
    requires 2 <= h <= 2 * n && start == SegmentStart(n, h) && k < h / 2
    ensures 1 <= start && start + k <= Cells(n)
    ensures Target(n, start + k) == Target(n, start) + k * Stride(n, h)
  {
    SegmentApart(n, h, k);
    ApartTargets(n, start, k, Stride(n, h));
  }

  lemma OneStrideMore(first: int, previous: int, next: int, k: int, coef: int)
    requires previous == first + (k - 1) * coef && next == previous + coef
    ensures next == first + k * coef
  {
    Advance(k, coef);
  }

  lemma Advance(k: int, coef: int)
    ensures k * coef == (k - 1) * coef + coef
  {
  }

  /** The numbers below m are in their places, written in order. */
  ghost predicate Written(n: nat, a: seq<int>, m: int, writes: seq<int>) {
    && 1 <= m <= Cells(n) + 1 && |a| == Cells(n) && |writes| == m - 1
    && forall i :: 1 <= i < m ==> a[Target(n, i)] == i && writes[i - 1] == Target(n, i)
  }

  lemma WriteNext(n: nat, a: seq<int>, m: int, writes: seq<int>)
    requires 1 <= m <= Cells(n) && Written(n, a, m, writes)
    ensures Written(n, a[Target(n, m) := m], m + 1, writes + [Target(n, m)])
  {
    forall i | 1 <= i < m
      ensures Target(n, i) != Target(n, m)
    {
      if Target(n, i) == Target(n, m) { TargetInjective(n, i, m); }
    }
  }

  /** The flat array holds the n-by-n spiral, row after row. */
  ghost predicate HoldsSpiral(n: nat, a: seq<int>) {
    forall r, c :: 0 <= r < n && 0 <= c < n ==>
      0 <= Cell(r, c).Index(n) < |a| && a[Cell(r, c).Index(n)] == Value(n, r, c)
  }

  lemma AllWritten(n: nat, a: seq<int>, m: int, writes: seq<int>)
    requires m == Cells(n) + 1 && Written(n, a, m, writes)
    ensures HoldsSpiral(n, a)
  {
    forall r, c | 0 <= r < n && 0 <= c < n
      ensures 0 <= Cell(r, c).Index(n) < |a| && a[Cell(r, c).Index(n)] == Value(n, r, c)
    {
      PlaceOfValue(n, r, c);
      var v := Value(n, r, c);
      assert Target(n, v) == Cell(r, c).Index(n) && a[Target(n, v)] == v;
    }
  }

  /** One segment: the inner loop writes h/2 numbers from lastIndex on, coef elements apart. */
  method FillSegment(n: nat, h: nat, arr: array<int>, lastIndex: int, coef: int, start: int, ghost before: seq<int>)
    returns (curNumber: int, ghost writes: seq<int>)
    requires 2 <= h <= 2 * n && start == SegmentStart(n, h) && start <= Cells(n)
    requires lastIndex == Target(n, start) && coef == Stride(n, h)
    requires Written(n, arr[..], start, before)
    modifies arr
    ensures curNumber == start + h / 2 <= Cells(n) + 1
    ensures Written(n, arr[..], curNumber, writes)
  {
    SegmentsInRange(n, h);
    curNumber, writes := start, before;
    for k := 0 to h / 2
      invariant curNumber == start + k
      invariant Written(n, arr[..], curNumber, writes)
    {
      SegmentTargets(n, h, start, k);
      WriteNext(n, arr[..], curNumber, writes);
      arr[lastIndex + k * coef] := curNumber;
      writes := writes + [lastIndex + k * coef];
      curNumber := curNumber + 1;
    }
  }

  /** The last element of a segment, and the first of the next one. */
  lemma SegmentEnd(n: nat, h: nat)
    requires 2 <= h <= 2 * n
    ensures 1 <= SegmentStart(n, h) <= SegmentStart(n, h) + h / 2 - 1 <= Cells(n)
    ensures Target(n, SegmentStart(n, h) + h / 2 - 1) == Target(n, SegmentStart(n, h)) + (h / 2 - 1) * Stride(n, h)
  {
    SegmentTargets(n, h, SegmentStart(n, h), h / 2 - 1);
  }

  lemma NextSegment(n: nat, h: nat)
    requires 2 < h <= 2 * n
    ensures 1 < SegmentStart(n, h) + h / 2 == SegmentStart(n, h - 1) <= Cells(n)
    ensures Target(n, SegmentStart(n, h - 1)) == Target(n, SegmentStart(n, h - 1) - 1) + Stride(n, h - 1)
  {
    SegmentsInRange(n, h);
    SegmentsInRange(n, h - 1);
    StrideMoves(n, h - 1, SegmentStart(n, h - 1));
  }

  /** The turn at the end of segment h: the next segment's stride and, if there is one, its first element. */
  method Turn(n: nat, h: nat, lastIndex: int, coef: int) returns (nextIndex: int, nextCoef: int)
    requires 2 <= h <= 2 * n && SegmentStart(n, h) <= Cells(n)
    requires lastIndex == Target(n, SegmentStart(n, h)) && coef == Stride(n, h)
    ensures nextCoef == Stride(n, h - 1)
    ensures h > 2 ==> SegmentStart(n, h - 1) <= Cells(n) && nextIndex == Target(n, SegmentStart(n, h - 1))
  {
    SegmentEnd(n, h);
    nextIndex := lastIndex + (h / 2 - 1) * coef;
    nextCoef := StrideAfter(n, h);
    if h > 2 { NextSegment(n, h); }
    nextIndex := nextIndex + nextCoef;
  }

  method StrideAfter(n: nat, h: nat) returns (coef: int)
    requires 2 <= h
    ensures coef == Stride(n, h - 1)
  {
    coef := if h % 2 == 0 then n else 1;
    HalfDown(h);
    if (h / 2) % 2 != n % 2 {
      coef := -coef;
    }
  }

  lemma HalfDown(h: nat)
    requires h >= 1
    ensures (h - 1 + 1) / 2 == h / 2 && (h % 2 == 0 <==> (h - 1) % 2 != 0)
  {
  }

  lemma FirstStride(n: nat)
    ensures Stride(n, 2 * n) == 1
  {
    assert (2 * n + 1) / 2 == n && (2 * n) % 2 == 0;
  }

  lemma FirstTarget(n: nat)
    requires n >= 1
    ensures SegmentStart(n, 2 * n) == 1 <= Cells(n) && Target(n, 1) == 0
  {
    assert Place(n, 1) == Cell(0, 0);
    assert 0 * n == 0;
  }

  lemma NothingWritten(n: nat, a: seq<int>)
    requires |a| == Cells(n)
    ensures Written(n, a, 1, [])
  {
  }

  /** Where the walk stands before segment h; no segment has the number 1. */
  predicate AtSegment(n: nat, h: nat, curNumber: int, lastIndex: int, coef: int) {
    && curNumber == SegmentStart(n, h) && 1 <= curNumber <= Cells(n) + 1
    && (h > 1 ==> curNumber <= Cells(n) && lastIndex == Target(n, curNumber) && coef == Stride(n, h))
  }

  /** One turn of the outer loop: a segment and the turn at its end. */
  method WalkSegment(n: nat, h: nat, arr: array<int>, lastIndex: int, coef: int, start: int, ghost before: seq<int>)
    returns (curNumber: int, nextIndex: int, nextCoef: int, ghost writes: seq<int>)
    requires 2 <= h <= 2 * n && AtSegment(n, h, start, lastIndex, coef) && Written(n, arr[..], start, before)
    modifies arr
    ensures AtSegment(n, h - 1, curNumber, nextIndex, nextCoef) && Written(n, arr[..], curNumber, writes)
  {
    SegmentsInRange(n, h);
    curNumber, writes := FillSegment(n, h, arr, lastIndex, coef, start, before);
    nextIndex, nextCoef := Turn(n, h, lastIndex, coef);
  }

  lemma AtStart(n: nat)
    requires n > 0
    ensures AtSegment(n, 2 * n, 1, 0, 1)
  {
    FirstStride(n);
    FirstTarget(n);
  }

  /** The loop over the segments. */
  method Walk(n: nat, arr: array<int>) returns (curNumber: int, lastIndex: int, coef: int, ghost writes: seq<int>)
    requires n > 0 && AtSegment(n, 2 * n, 1, 0, 1) && Written(n, arr[..], 1, [])
    modifies arr
    ensures AtSegment(n, 1, curNumber, lastIndex, coef) && Written(n, arr[..], curNumber, writes)
  {
    curNumber, lastIndex, coef, writes := 1, 0, 1, [];
    var h := 2 * n;
    while h > 1
      invariant 1 <= h <= 2 * n
      invariant AtSegment(n, h, curNumber, lastIndex, coef)
      invariant Written(n, arr[..], curNumber, writes)
    {
      curNumber, lastIndex, coef, writes := WalkSegment(n, h, arr, lastIndex, coef, curNumber, writes);
      h := h - 1;
    }
  }

  method Square(n: nat) returns (arr: array<int>)
    ensures fresh(arr) && arr.Length == Cells(n) == n * n && Written(n, arr[..], 1, [])
  {
    CellsIsSquare(n);
    arr := new int[n * n];
    NothingWritten(n, arr[..]);
  }

  /** The loop fills the array with the spiral and writes the numbers in order, each element once:
      `writes` is the sequence of array elements it assigned. */
  method FourthTask(n: nat) returns (arr: array<int>, curNumber: int, ghost writes: seq<int>)
    ensures arr.Length == Cells(n) == n * n && curNumber == n * n + 1
    ensures HoldsSpiral(n, arr[..])
    ensures |writes| == Cells(n) && forall m :: 1 <= m <= Cells(n) ==> writes[m - 1] == Target(n, m)
  {
    arr := Square(n);
    curNumber, writes := 1, [];
    if n > 0 {
      AtStart(n);
      var lastIndex, coef;
      curNumber, lastIndex, coef, writes := Walk(n, arr);
      SegmentsCover(n);
    }
    AllWritten(n, arr[..], curNumber, writes);
  }
}
