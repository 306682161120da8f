/** The flood fill that splits a colour mask into its connected plate surfaces. */
module SurfaceComponents {
  import opened Options
  import opened PlanePoints
  import opened ConvexHull
  import opened Rasters

  /** A mask of `width * height` cells, row by row; 0 is background. */
  datatype Grid = Grid(width: nat, height: nat, colors: seq<nat>) {
    ghost predicate Valid() {
      width > 0 && |colors| == width * height
    }
  }

  // ----- cells and their four neighbours -----

  datatype Direction = Left | Right | Up | Down

  /** The order in which the neighbours of a cell are visited. */
  function DirectionAt(n: nat): Direction
    requires n < 4
  {
    if n == 0 then Left else if n == 1 then Right else if n == 2 then Up else Down
  }

  function Opposite(d: Direction): Direction {
    match d case Left => Right case Right => Left case Up => Down case Down => Up
  }

  function Offset(d: Direction): Point {
    match d case Left => Point(-1, 0) case Right => Point(1, 0) case Up => Point(0, -1) case Down => Point(0, 1)
  }

  function Neighbor(width: nat, height: nat, i: nat, d: Direction): Option<nat>
    requires width > 0
  {
    var nx, ny := Column(width, i) + Offset(d).x, Row(width, i) + Offset(d).y;
    if nx < 0 || nx >= width || ny < 0 || ny >= height then None else Some(ny * width + nx)
  }

  lemma NeighborCoordinates(width: nat, height: nat, i: nat, d: Direction)
    requires width > 0 && i < width * height && Neighbor(width, height, i, d).Some?
    ensures var j := Neighbor(width, height, i, d).value;
            && j < width * height
            && Column(width, j) == Column(width, i) + Offset(d).x
            && Row(width, j) == Row(width, i) + Offset(d).y
            && Neighbor(width, height, j, Opposite(d)) == Some(i)
  {
    var nx, ny := Column(width, i) + Offset(d).x, Row(width, i) + Offset(d).y;
    CellCoordinates(width, nx, ny);
    CellInRange(width, height, nx, ny);
    RowInRange(width, height, i);
    assert Row(width, i) * width + Column(width, i) == i;
  }

  // ----- connected cells -----

  /** `j` is a neighbour of `i` of the same colour. */
  ghost predicate Linked(g: Grid, i: nat, j: nat)
    requires g.Valid()
  {
    && i < |g.colors| && j < |g.colors| && g.colors[i] == g.colors[j]
    && exists d :: Neighbor(g.width, g.height, i, d) == Some(j)
  }

  ghost predicate IsPath(g: Grid, path: seq<nat>)
    requires g.Valid()
  {
    && path != [] && (forall k :: 0 <= k < |path| ==> path[k] < |g.colors|)
    && forall k :: 0 <= k < |path| - 1 ==> Linked(g, path[k], path[k + 1])
  }

  /** A path of same-coloured, 4-connected cells leads from `i` to `j`. */
  ghost predicate Connected(g: Grid, i: nat, j: nat)
    requires g.Valid()
  {
    exists path :: IsPath(g, path) && path[0] == i && path[|path| - 1] == j
  }

  lemma LinkedIsSymmetric(g: Grid, i: nat, j: nat)
    requires g.Valid() && Linked(g, i, j)
    ensures Linked(g, j, i)
  {
    var d :| Neighbor(g.width, g.height, i, d) == Some(j);
    NeighborCoordinates(g.width, g.height, i, d);
  }

  lemma ConnectedToItself(g: Grid, i: nat)
    requires g.Valid() && i < |g.colors|
    ensures Connected(g, i, i)
  {
    assert IsPath(g, [i]);
  }

  lemma ConnectedExtends(g: Grid, i: nat, j: nat, k: nat)
    requires g.Valid() && Connected(g, i, j) && Linked(g, j, k)
    ensures Connected(g, i, k)
  {
    var path :| IsPath(g, path) && path[0] == i && path[|path| - 1] == j;
    var longer := path + [k];
    forall n | 0 <= n < |longer| - 1 ensures Linked(g, longer[n], longer[n + 1]) {
      if n < |path| - 1 { assert longer[n] == path[n] && longer[n + 1] == path[n + 1]; }
    }
    assert IsPath(g, longer);
  }

  /** Closed under links: no cell outside is linked to one inside. */
  ghost predicate Closed(g: Grid, cells: set<nat>)
    requires g.Valid()
  {
    forall i, j :: i in cells && Linked(g, i, j) ==> j in cells
  }

  lemma {:induction false} PathStaysInside(g: Grid, cells: set<nat>, path: seq<nat>, n: nat)
    requires g.Valid() && Closed(g, cells) && IsPath(g, path) && path[0] in cells && n < |path|
    ensures path[n] in cells
    decreases n
  {
    if n > 0 {
      PathStaysInside(g, cells, path, n - 1);
      assert Linked(g, path[n - 1], path[n - 1 + 1]);
    }
  }

  lemma ClosedHoldsConnected(g: Grid, cells: set<nat>, i: nat)
    requires g.Valid() && Closed(g, cells) && i in cells
    ensures forall j :: Connected(g, i, j) ==> j in cells
  {
    forall j | Connected(g, i, j) ensures j in cells {
      var path :| IsPath(g, path) && path[0] == i && path[|path| - 1] == j;
      PathStaysInside(g, cells, path, |path| - 1);
    }
  }

  // ----- masks from which whole components were erased -----

  function Erased(g: Grid, gone: set<nat>): Grid {
    Grid(g.width, g.height, seq(|g.colors|, i requires 0 <= i < |g.colors| => if i in gone then 0 else g.colors[i]))
  }

  /** Outside an erased closed part, links of nonzero colour are as before. */
  lemma ErasedLinks(g: Grid, gone: set<nat>, i: nat, j: nat)
    requires g.Valid() && Closed(g, gone) && i < |g.colors| && i !in gone && g.colors[i] != 0
    ensures Erased(g, gone).Valid()
    ensures Linked(Erased(g, gone), i, j) <==> Linked(g, i, j)
    ensures Linked(g, i, j) ==> j !in gone && g.colors[j] != 0
  {
    if Linked(g, i, j) { LinkedIsSymmetric(g, i, j); }
  }

  lemma {:induction false} PathSurvives(g: Grid, gone: set<nat>, path: seq<nat>, n: nat)
    requires g.Valid() && Closed(g, gone) && Erased(g, gone).Valid() && n < |path|
    requires IsPath(g, path) || IsPath(Erased(g, gone), path)
    requires path[0] < |g.colors| && path[0] !in gone && g.colors[path[0]] != 0
    ensures path[n] < |g.colors| && path[n] !in gone && g.colors[path[n]] != 0
    decreases n
  {
    if n > 0 {
      PathSurvives(g, gone, path, n - 1);
      ErasedLinks(g, gone, path[n - 1], path[n]);
      if IsPath(g, path) {
        assert Linked(g, path[n - 1], path[n - 1 + 1]);
      } else {
        assert Linked(Erased(g, gone), path[n - 1], path[n - 1 + 1]);
      }
    }
  }

  /** Erasing other components does not change what a remaining cell is connected to. */
  lemma ErasedKeepsConnections(g: Grid, gone: set<nat>, i: nat, j: nat)
    requires g.Valid() && Closed(g, gone) && i < |g.colors| && i !in gone && g.colors[i] != 0
    ensures Erased(g, gone).Valid()
    ensures Connected(Erased(g, gone), i, j) <==> Connected(g, i, j)
  {
    var e := Erased(g, gone);
    if Connected(g, i, j) {
      var path :| IsPath(g, path) && path[0] == i && path[|path| - 1] == j;
      forall n | 0 <= n < |path| - 1 ensures Linked(e, path[n], path[n + 1]) {
        PathSurvives(g, gone, path, n);
        ErasedLinks(g, gone, path[n], path[n + 1]);
      }
      assert IsPath(e, path);
    }
    if Connected(e, i, j) {
      var path :| IsPath(e, path) && path[0] == i && path[|path| - 1] == j;
      forall n | 0 <= n < |path| - 1 ensures Linked(g, path[n], path[n + 1]) {
        PathSurvives(g, gone, path, n);
        ErasedLinks(g, gone, path[n], path[n + 1]);
      }
      assert IsPath(g, path);
    }
  }

  // ----- filling one surface -----

  ghost predicate Distinct(cells: seq<nat>) {
    forall i, j :: 0 <= i < j < |cells| ==> cells[i] != cells[j]
  }

  lemma {:induction false} DistinctFits(cells: seq<nat>, bound: nat)
    requires Distinct(cells) && forall i :: i in cells ==> i < bound
    ensures |cells| <= bound
    decreases bound
  {
    if cells != [] {
      assert cells[0] in cells;
      if bound - 1 in cells {
        var k :| 0 <= k < |cells| && cells[k] == bound - 1;
        var rest := cells[..k] + cells[k + 1..];
        forall i | i in rest ensures i in cells && i != bound - 1 {
          var n :| 0 <= n < |rest| && rest[n] == i;
          assert i == cells[if n < k then n else n + 1];
        }
        DistinctFits(rest, bound - 1);
      } else {
        DistinctFits(cells, bound - 1);
      }
    }
  }

  /** Some neighbour of `i` is off the mask or of another colour. */
  ghost predicate OnRim(g: Grid, i: nat)
    requires g.Valid() && i < |g.colors|
  {
    exists d: Direction :: !Inside(g, i, d)
  }

  ghost predicate Inside(g: Grid, i: nat, d: Direction)
    requires g.Valid() && i < |g.colors|
  {
    var n := Neighbor(g.width, g.height, i, d);
    n.Some? && Linked(g, i, n.value)
  }

  /** The image pixel that mask cell `i` samples. */
  function Pixel(left: int, top: int, step: int, width: nat, i: nat): Point
    requires width > 0
  {
    Point(left + Column(width, i) * step, top + Row(width, i) * step)
  }

  ghost function Pixels(left: int, top: int, step: int, width: nat, cells: seq<nat>): seq<Point>
    requires width > 0
  {
    seq(|cells|, k requires 0 <= k < |cells| => Pixel(left, top, step, width, cells[k]))
  }

  predicate TouchesEdge(width: nat, height: nat, i: nat)
    requires width > 0
  {
    Column(width, i) == 0 || Row(width, i) == 0 || Column(width, i) == width - 1 || Row(width, i) == height - 1
  }

  ghost predicate Rim(g: Grid, queue: seq<nat>, rim: seq<nat>)
    requires g.Valid()
  {
    && Distinct(rim)
    && (forall i :: i in rim ==> i in queue)
    && forall k :: 0 <= k < |queue| && queue[k] < |g.colors| && OnRim(g, queue[k]) ==> queue[k] in rim
  }

  /** `queue` lists the component of `seed` once, and `rim` holds at least its outline. */
  ghost predicate IsSurface(g: Grid, seed: nat, queue: seq<nat>, rim: seq<nat>)
    requires g.Valid()
  {
    && Distinct(queue)
    && seed < |g.colors|
    && (forall i: nat :: i in queue <==> i < |g.colors| && Connected(g, seed, i))
    && (forall i :: i in queue ==> g.colors[i] == g.colors[seed])
    && Rim(g, queue, rim)
  }

  /** All neighbours of `i` in the first `n` directions that share its colour are in the queue. */
  ghost predicate Explored(g: Grid, i: nat, n: nat, queue: seq<nat>)
    requires g.Valid() && i < |g.colors| && n <= 4
  {
    forall m {:trigger DirectionAt(m)} :: 0 <= m < n && Inside(g, i, DirectionAt(m)) ==>
      Neighbor(g.width, g.height, i, DirectionAt(m)).value in queue
  }

  /** The state of the fill: what is queued is connected to the seed, and erased from the mask. */
  ghost predicate Filling(g: Grid, seed: nat, queue: seq<nat>, mask: seq<nat>)
    requires g.Valid()
  {
    && seed < |g.colors| && g.colors[seed] != 0
    && seed in queue && Distinct(queue)
    && (forall i :: i in queue ==> i < |g.colors| && g.colors[i] == g.colors[seed] && Connected(g, seed, i))
    && |mask| == |g.colors|
    && forall i :: 0 <= i < |mask| ==> mask[i] == if i in queue then 0 else g.colors[i]
  }

  lemma PushKeepsFilling(g: Grid, seed: nat, queue: seq<nat>, mask: seq<nat>, i: nat, d: Direction)
    requires g.Valid() && Filling(g, seed, queue, mask) && i in queue
    requires Neighbor(g.width, g.height, i, d).Some?
    ensures var j := Neighbor(g.width, g.height, i, d).value;
            && j < |mask|
            && (mask[j] == g.colors[seed] ==> j !in queue && Filling(g, seed, queue + [j], mask[j := 0]) && Inside(g, i, d))
            && (mask[j] != g.colors[seed] && Inside(g, i, d) ==> j in queue)
  {
    NeighborCoordinates(g.width, g.height, i, d);
    var j := Neighbor(g.width, g.height, i, d).value;
    if mask[j] == g.colors[seed] {
      assert Linked(g, i, j);
      ConnectedExtends(g, seed, i, j);
    }
  }

  lemma FillingFits(g: Grid, seed: nat, queue: seq<nat>, mask: seq<nat>)
    requires g.Valid() && Filling(g, seed, queue, mask)
    ensures |queue| <= |mask| && Distinct(queue)
    ensures forall k :: 0 <= k < |queue| ==> queue[k] < |g.colors|
  {
    DistinctFits(queue, |mask|);
    assert forall k :: 0 <= k < |queue| ==> queue[k] in queue;
  }

  lemma AllDirections(g: Grid, i: nat, d: Direction)
    ensures exists n :: 0 <= n < 4 && DirectionAt(n) == d
  {
    match d {
      case Left => assert DirectionAt(0) == d;
      case Right => assert DirectionAt(1) == d;
      case Up => assert DirectionAt(2) == d;
      case Down => assert DirectionAt(3) == d;
    }
  }

  lemma ExploredIsClosed(g: Grid, queue: seq<nat>)
    requires g.Valid() && forall k :: 0 <= k < |queue| ==> queue[k] < |g.colors| && Explored(g, queue[k], 4, queue)
    ensures Closed(g, (set i | i in queue))
  {
    forall i, j | i in queue && Linked(g, i, j) ensures j in queue {
      var k :| 0 <= k < |queue| && queue[k] == i;
      var d :| Neighbor(g.width, g.height, i, d) == Some(j);
      AllDirections(g, i, d);
      var n :| 0 <= n < 4 && DirectionAt(n) == d;
      assert Inside(g, i, DirectionAt(n));
    }
  }

  lemma FilledIsSurface(g: Grid, seed: nat, queue: seq<nat>, mask: seq<nat>, rim: seq<nat>)
    requires g.Valid() && Filling(g, seed, queue, mask) && Rim(g, queue, rim)
    requires forall k :: 0 <= k < |queue| ==> queue[k] < |g.colors| && Explored(g, queue[k], 4, queue)
    ensures IsSurface(g, seed, queue, rim)
  {
    ExploredIsClosed(g, queue);
    ClosedHoldsConnected(g, (set i | i in queue), seed);
  }

  /** `j` is one of the four neighbours of `i`. */
  ghost predicate NextTo(g: Grid, i: nat, j: nat)
    requires g.Valid()
  {
    exists d :: Neighbor(g.width, g.height, i, d) == Some(j)
  }

  /** In direction `d` there is no cell of the same colour, or one that is queued already. */
  ghost predicate StopsAt(g: Grid, i: nat, d: Direction, queue: seq<nat>)
    requires g.Valid() && i < |g.colors|
  {
    !Inside(g, i, d) || Neighbor(g.width, g.height, i, d).value in queue
  }

  /** `j` is the neighbour of `i` in one of the first `n` directions. */
  ghost predicate ReachedBy(g: Grid, i: nat, j: nat, n: nat)
    requires g.Valid() && n <= 4
  {
    exists m {:trigger DirectionAt(m)} :: 0 <= m < n && Neighbor(g.width, g.height, i, DirectionAt(m)) == Some(j)
  }

  lemma DirectionsDiffer(g: Grid, i: nat, d: Direction, e: Direction)
    requires g.Valid() && i < |g.colors| && Neighbor(g.width, g.height, i, d).Some?
    requires Neighbor(g.width, g.height, i, d) == Neighbor(g.width, g.height, i, e)
    ensures d == e
  {
    NeighborCoordinates(g.width, g.height, i, d);
    NeighborCoordinates(g.width, g.height, i, e);
    hide Neighbor, Column, Row;
  }

  /** The neighbour in the next direction is not one reached before. */
  lemma OnlyOneWay(g: Grid, i: nat, n: nat)
    requires g.Valid() && i < |g.colors| && n < 4
    ensures forall j :: Neighbor(g.width, g.height, i, DirectionAt(n)) == Some(j) ==> !ReachedBy(g, i, j, n) && ReachedBy(g, i, j, n + 1)
    ensures forall j :: ReachedBy(g, i, j, n) ==> ReachedBy(g, i, j, n + 1)
  {
    hide Neighbor;
    forall j | Neighbor(g.width, g.height, i, DirectionAt(n)) == Some(j) ensures !ReachedBy(g, i, j, n) && ReachedBy(g, i, j, n + 1) {
      if m :| 0 <= m < n && Neighbor(g.width, g.height, i, DirectionAt(m)) == Some(j) {
        DirectionsDiffer(g, i, DirectionAt(m), DirectionAt(n));
      }
    }
  }

  /** One of the first `n` directions stops at a cell without the colour, or queued already. */
  ghost predicate StopsBefore(g: Grid, i: nat, n: nat, queue: seq<nat>)
    requires g.Valid() && i < |g.colors| && n <= 4
  {
    exists m {:trigger DirectionAt(m)} :: 0 <= m < n && StopsAt(g, i, DirectionAt(m), queue)
  }

  /** The next direction stops unless its cell is pushed. */
  lemma VisitStep(g: Grid, i: nat, n: nat, start: seq<nat>, queue: seq<nat>, pushed: bool)
    requires g.Valid() && i < |g.colors| && n < 4 && start <= queue
    requires forall j :: j in queue ==> j in start || ReachedBy(g, i, j, n)
    requires if pushed then Inside(g, i, DirectionAt(n)) && Neighbor(g.width, g.height, i, DirectionAt(n)).value !in queue
             else !Inside(g, i, DirectionAt(n)) || Neighbor(g.width, g.height, i, DirectionAt(n)).value in queue
    ensures StopsBefore(g, i, n + 1, start) <==> StopsBefore(g, i, n, start) || !pushed
    ensures forall j :: j in queue || (pushed && j == Neighbor(g.width, g.height, i, DirectionAt(n)).value) ==>
              j in start || ReachedBy(g, i, j, n + 1)
  {
    hide Neighbor, ReachedBy;
    OnlyOneWay(g, i, n);
    if pushed { assert forall j :: j in start ==> j in queue; }
    assert StopsAt(g, i, DirectionAt(n), start) <==> !pushed;
    hide Inside, StopsAt;
    if StopsBefore(g, i, n + 1, start) {
      var m :| 0 <= m < n + 1 && StopsAt(g, i, DirectionAt(m), start);
      assert m < n ==> StopsBefore(g, i, n, start);
    }
    if StopsBefore(g, i, n, start) {
      var m :| 0 <= m < n && StopsAt(g, i, DirectionAt(m), start);
      assert StopsBefore(g, i, n + 1, start);
    }
    if !pushed { assert StopsBefore(g, i, n + 1, start); }
  }

  lemma NothingVisited(g: Grid, i: nat, start: seq<nat>)
    requires g.Valid() && i < |g.colors|
    ensures !StopsBefore(g, i, 0, start) && Explored(g, i, 0, start)
  {
  }

  lemma ExploredMore(g: Grid, i: nat, n: nat, queue: seq<nat>, longer: seq<nat>)
    requires g.Valid() && i < |g.colors| && n < 4 && queue <= longer && Explored(g, i, n, queue)
    requires Inside(g, i, DirectionAt(n)) ==> Neighbor(g.width, g.height, i, DirectionAt(n)).value in longer
    ensures Explored(g, i, n + 1, longer)
  {
    hide Neighbor;
    forall m {:trigger DirectionAt(m)} | 0 <= m < n + 1 && Inside(g, i, DirectionAt(m))
      ensures Neighbor(g.width, g.height, i, DirectionAt(m)).value in longer
    {
      if m < n { assert Neighbor(g.width, g.height, i, DirectionAt(m)).value in queue; }
    }
  }

  lemma ReachedIsNext(g: Grid, i: nat, j: nat)
    requires g.Valid() && ReachedBy(g, i, j, 4)
    ensures NextTo(g, i, j)
  {
  }

  lemma StopsSomewhere(g: Grid, i: nat, queue: seq<nat>)
    requires g.Valid() && i < |g.colors| && i in queue && forall j :: j in queue ==> j < |g.colors| && g.colors[j] == g.colors[i]
    ensures StopsBefore(g, i, 4, queue) <==>
              OnRim(g, i) || exists j :: j in queue && NextTo(g, i, j)
  {
    hide Neighbor;
    if m :| 0 <= m < 4 && StopsAt(g, i, DirectionAt(m), queue) {
      if Inside(g, i, DirectionAt(m)) { assert NextTo(g, i, Neighbor(g.width, g.height, i, DirectionAt(m)).value); }
    }
    if OnRim(g, i) {
      var d: Direction :| !Inside(g, i, d);
      AllDirections(g, i, d);
    }
    if j :| j in queue && NextTo(g, i, j) {
      var d: Direction :| Neighbor(g.width, g.height, i, d) == Some(j);
      AllDirections(g, i, d);
    }
  }

  /** Visits the neighbours of one queued cell: queues and erases those of its colour that are left. */
  method Visit(mask: array<nat>, width: nat, height: nat, index: nat, color: nat, start: seq<nat>, ghost g: Grid, ghost seed: nat)
    returns (queue: seq<nat>, isBoundary: bool)
    requires g.Valid() && g.width == width && g.height == height
    requires Filling(g, seed, start, mask[..]) && index in start && color == g.colors[seed]
    modifies mask
    ensures Filling(g, seed, queue, mask[..])
    ensures start <= queue
    ensures Explored(g, index, 4, queue)
    ensures isBoundary <==> OnRim(g, index) || exists j :: j in start && NextTo(g, index, j)
    ensures forall j :: j in queue ==> j in start || NextTo(g, index, j)
  {
    hide NextTo, ReachedBy, StopsBefore, StopsAt, Explored, Inside, OnRim, Neighbor;
    queue, isBoundary := start, false;
    FillingHas(g, seed, start, mask[..], index);
    NothingVisited(g, index, start);
    for n := 0 to 4
      invariant Filling(g, seed, queue, mask[..])
      invariant start <= queue
      invariant Explored(g, index, n, queue)
      invariant isBoundary <==> StopsBefore(g, index, n, start)
      invariant forall j :: j in queue ==> j in start || ReachedBy(g, index, j, n)
    {
      hide Filling;
      var d := DirectionAt(n);
      ghost var before := queue;
      ghost var pushed := false;
      assert index in queue;
      match Neighbor(width, height, index, d) {
        case None =>
          OffGrid(g, index, d);
          isBoundary := true;
        case Some(neighbor) =>
          PushKeepsFilling(g, seed, queue, mask[..], index, d);
          if mask[neighbor] == color {
            ghost var left := mask[..];
            mask[neighbor] := 0;
            assert mask[..] == left[neighbor := 0];
            queue := queue + [neighbor];
            pushed := true;
          } else {
            isBoundary := true;
          }
      }
      VisitStep(g, index, n, start, before, pushed);
      ExploredMore(g, index, n, before, queue);
    }
    StopsSomewhere(g, index, start);
    forall j | j in queue && j !in start ensures NextTo(g, index, j) { ReachedIsNext(g, index, j); }
  }

  lemma OffGrid(g: Grid, i: nat, d: Direction)
    requires g.Valid() && i < |g.colors| && Neighbor(g.width, g.height, i, d) == None
    ensures !Inside(g, i, d)
  {
  }

  lemma FillingHas(g: Grid, seed: nat, queue: seq<nat>, mask: seq<nat>, i: nat)
    requires g.Valid() && Filling(g, seed, queue, mask) && i in queue
    ensures i < |g.colors| && forall j :: j in queue ==> j < |g.colors| && g.colors[j] == g.colors[i]
  {
  }

  /** The first `cursor` queued cells have been visited, and those on the rim recorded. */
  ghost predicate Scanned(g: Grid, queue: seq<nat>, cursor: nat, rim: seq<nat>)
    requires g.Valid()
  {
    && cursor <= |queue|
    && (forall k :: 0 <= k < cursor ==> queue[k] < |g.colors| && Explored(g, queue[k], 4, queue))
    && Rim(g, queue[..cursor], rim)
  }

  lemma ScanAdvances(g: Grid, before: seq<nat>, queue: seq<nat>, cursor: nat, rim: seq<nat>, isBoundary: bool)
    requires g.Valid() && cursor < |before| && before <= queue && Distinct(queue)
    requires Scanned(g, before, cursor, rim)
    requires queue[cursor] < |g.colors| && Explored(g, queue[cursor], 4, queue)
    requires OnRim(g, queue[cursor]) ==> isBoundary
    ensures Scanned(g, queue, cursor + 1, if isBoundary then rim + [queue[cursor]] else rim)
  {
    var rim' := if isBoundary then rim + [queue[cursor]] else rim;
    assert queue[..cursor + 1] == before[..cursor] + [queue[cursor]];
    forall k | 0 <= k < cursor + 1 ensures queue[k] < |g.colors| && Explored(g, queue[k], 4, queue) {
      if k < cursor {
        assert queue[k] == before[k];
        assert Explored(g, before[k], 4, before);
      }
    }
    forall k | 0 <= k < cursor + 1 && queue[k] < |g.colors| && OnRim(g, queue[k]) ensures queue[k] in rim' {
      if k < cursor { assert before[..cursor][k] == queue[k]; }
    }
    assert queue[cursor] !in before[..cursor];
  }

  lemma FillingStarts(g: Grid, seed: nat, mask: seq<nat>)
    requires g.Valid() && seed < |g.colors| && g.colors[seed] != 0 && mask == g.colors[seed := 0]
    ensures Filling(g, seed, [seed], mask) && Scanned(g, [seed], 0, [])
  {
    ConnectedToItself(g, seed);
  }

  lemma ScanEnds(g: Grid, seed: nat, queue: seq<nat>, rim: seq<nat>, mask: seq<nat>)
    requires g.Valid() && Filling(g, seed, queue, mask) && Scanned(g, queue, |queue|, rim)
    ensures IsSurface(g, seed, queue, rim)
    ensures mask == Erased(g, (set i | i in queue)).colors
  {
    assert queue[..|queue|] == queue;
    FilledIsSurface(g, seed, queue, mask, rim);
  }

  /** Every queued cell but the first lies next to one queued before it. */
  ghost predicate Fathered(g: Grid, queue: seq<nat>)
    requires g.Valid()
  {
    forall k :: 1 <= k < |queue| ==> exists m :: 0 <= m < k && NextTo(g, queue[k], queue[m])
  }

  /** What one visit records: all but the first cell, and that one too if it lies on the rim. */
  ghost function Recorded(g: Grid, queue: seq<nat>): seq<nat>
    requires g.Valid() && forall k :: 0 <= k < |queue| ==> queue[k] < |g.colors|
  {
    if queue == [] || OnRim(g, queue[0]) then queue else queue[1..]
  }

  lemma NextToIsSymmetric(g: Grid, i: nat, j: nat)
    requires g.Valid() && i < |g.colors| && NextTo(g, i, j)
    ensures NextTo(g, j, i)
  {
    var d :| Neighbor(g.width, g.height, i, d) == Some(j);
    NeighborCoordinates(g.width, g.height, i, d);
  }

  lemma FatheredMore(g: Grid, before: seq<nat>, queue: seq<nat>, cursor: nat)
    requires g.Valid() && Fathered(g, before) && cursor < |before| && before <= queue && before[cursor] < |g.colors|
    requires forall j :: j in queue ==> j in before || NextTo(g, before[cursor], j)
    requires Distinct(queue)
    ensures Fathered(g, queue)
  {
    hide NextTo;
    forall k | 1 <= k < |queue| ensures exists m :: 0 <= m < k && NextTo(g, queue[k], queue[m]) {
      if k < |before| {
        var m :| 0 <= m < k && NextTo(g, before[k], before[m]);
        assert NextTo(g, queue[k], queue[m]);
      } else {
        assert queue[k] in queue;
        assert queue[k] !in before;
        NextToIsSymmetric(g, before[cursor], queue[k]);
        assert NextTo(g, queue[k], queue[cursor]);
      }
    }
  }

  lemma HasFather(g: Grid, queue: seq<nat>, k: nat)
    requires g.Valid() && Fathered(g, queue) && 1 <= k < |queue|
    ensures exists j :: j in queue && NextTo(g, queue[k], j)
  {
    hide NextTo;
    var m :| 0 <= m < k && NextTo(g, queue[k], queue[m]);
    assert queue[m] in queue;
  }

  lemma RecordedLonger(g: Grid, queue: seq<nat>, i: nat)
    requires g.Valid() && queue != [] && i < |g.colors| && forall k :: 0 <= k < |queue| ==> queue[k] < |g.colors|
    ensures Recorded(g, queue + [i]) == Recorded(g, queue) + [i]
  {
    hide OnRim;
    assert (queue + [i])[1..] == queue[1..] + [i];
  }

  /** A visit stops everywhere but at a first cell off the rim. */
  lemma RecordedMore(g: Grid, before: seq<nat>, cursor: nat, isBoundary: bool)
    requires g.Valid() && Fathered(g, before) && cursor < |before|
    requires forall k :: 0 <= k < |before| ==> before[k] < |g.colors|
    requires cursor == 0 ==> |before| == 1
    requires isBoundary <==> OnRim(g, before[cursor]) || exists j :: j in before && NextTo(g, before[cursor], j)
    ensures Recorded(g, before[..cursor + 1]) == Recorded(g, before[..cursor]) + if isBoundary then [before[cursor]] else []
  {
    hide NextTo, OnRim, Fathered;
    assert before[..cursor + 1] == before[..cursor] + [before[cursor]];
    if cursor == 0 {
      NotNextToItself(g, before[0]);
    } else {
      hide Recorded;
      HasFather(g, before, cursor);
      RecordedLonger(g, before[..cursor], before[cursor]);
    }
  }

  lemma NotNextToItself(g: Grid, i: nat)
    requires g.Valid() && i < |g.colors|
    ensures !NextTo(g, i, i)
  {
    if d :| Neighbor(g.width, g.height, i, d) == Some(i) { NeighborCoordinates(g.width, g.height, i, d); }
  }

  /**
   * Floods the surface of `seed`, erasing it from the mask. Since visited cells are erased, every cell but the seed finds
   * an erased neighbour and is put on the boundary list; the seed is only if it lies on the rim.
   */
  method Fill(mask: array<nat>, width: nat, height: nat, seed: nat, left: int, top: int, step: int, ghost g: Grid)
    returns (queue: seq<nat>, boundary: seq<Point>, touchesEdge: bool, ghost rim: seq<nat>)
    requires g.Valid() && g == Grid(width, height, mask[..])
    requires seed < mask.Length && mask[seed] != 0
    modifies mask
    ensures IsSurface(g, seed, queue, rim) && queue != [] && queue[0] == seed
    ensures rim == if OnRim(g, seed) then queue else queue[1..]
    ensures boundary == Pixels(left, top, step, width, rim)
    ensures touchesEdge <==> exists i :: i in queue && TouchesEdge(width, height, i)
    ensures mask[..] == Erased(g, (set i | i in queue)).colors
  {
    hide Filling, Progress, Explored, OnRim, IsSurface, Connected, NextTo, Pixel;
    var color := mask[seed];
    queue := [seed];
    mask[seed] := 0;
    FillStarts(g, seed, mask[..]);
    boundary, touchesEdge, rim := [], false, [];
    var cursor := 0;
    while cursor < |queue|
      invariant cursor <= |queue| <= mask.Length
      invariant Filling(g, seed, queue, mask[..]) && Progress(g, seed, queue, cursor, rim)
      invariant boundary == Pixels(left, top, step, width, rim)
      invariant touchesEdge <==> exists k :: 0 <= k < cursor && TouchesEdge(width, height, queue[k])
      decreases mask.Length - cursor
    {
      var index := queue[cursor];
      assert index in queue;
      if TouchesEdge(width, height, index) { touchesEdge := true; }
      ghost var before := queue;
      var isBoundary;
      queue, isBoundary := Visit(mask, width, height, index, color, queue, g, seed);
      FillingFits(g, seed, queue, mask[..]);
      VisitScans(g, seed, before, queue, cursor, rim, isBoundary);
      if isBoundary {
        boundary := boundary + [Pixel(left, top, step, width, index)];
        rim := rim + [index];
      }
      cursor := cursor + 1;
    }
    FillEnds(g, seed, queue, rim, mask[..]);
  }

  /** How far the scan of the queue is, and what it recorded. */
  ghost predicate Progress(g: Grid, seed: nat, queue: seq<nat>, cursor: nat, rim: seq<nat>)
    requires g.Valid()
  {
    && cursor <= |queue| && queue != [] && queue[0] == seed && (cursor == 0 ==> queue == [seed])
    && (forall k :: 0 <= k < |queue| ==> queue[k] < |g.colors|)
    && Scanned(g, queue, cursor, rim) && Fathered(g, queue) && rim == Recorded(g, queue[..cursor])
  }

  lemma FillStarts(g: Grid, seed: nat, mask: seq<nat>)
    requires g.Valid() && seed < |g.colors| && g.colors[seed] != 0 && mask == g.colors[seed := 0]
    ensures Filling(g, seed, [seed], mask) && Progress(g, seed, [seed], 0, [])
  {
    hide Filling, Scanned;
    FillingStarts(g, seed, mask);
  }

  lemma FillEnds(g: Grid, seed: nat, queue: seq<nat>, rim: seq<nat>, mask: seq<nat>)
    requires g.Valid() && Filling(g, seed, queue, mask) && Progress(g, seed, queue, |queue|, rim)
    ensures IsSurface(g, seed, queue, rim) && queue != [] && queue[0] == seed
    ensures seed < |g.colors| && rim == if OnRim(g, seed) then queue else queue[1..]
    ensures mask == Erased(g, (set i | i in queue)).colors
  {
    hide Filling, Scanned, IsSurface, Fathered, OnRim;
    assert queue[..|queue|] == queue;
    ScanEnds(g, seed, queue, rim, mask);
  }

  /** What one visit does to the scan, to the order of the queue and to what is recorded. */
  lemma VisitScans(g: Grid, seed: nat, before: seq<nat>, queue: seq<nat>, cursor: nat, rim: seq<nat>, isBoundary: bool)
    requires g.Valid() && cursor < |before| && before <= queue && Distinct(queue) && Progress(g, seed, before, cursor, rim)
    requires forall k :: 0 <= k < |queue| ==> queue[k] < |g.colors|
    requires Explored(g, queue[cursor], 4, queue)
    requires forall j :: j in queue ==> j in before || NextTo(g, before[cursor], j)
    requires isBoundary <==> OnRim(g, before[cursor]) || exists j :: j in before && NextTo(g, before[cursor], j)
    ensures Progress(g, seed, queue, cursor + 1, if isBoundary then rim + [queue[cursor]] else rim)
  {
    hide Scanned, Explored, OnRim, NextTo, Fathered, Recorded;
    assert forall k :: 0 <= k < |before| ==> before[k] == queue[k];
    ScanAdvances(g, before, queue, cursor, rim, isBoundary);
    FatheredMore(g, before, queue, cursor);
    RecordedMore(g, before, cursor, isBoundary);
    assert queue[..cursor + 1] == before[..cursor + 1];
  }

  // ----- what the cells of a surface are in coordinates -----

  lemma NeighborInCoordinates(g: Grid, x: nat, y: nat, x': nat, y': nat, d: Direction)
    requires g.Valid() && x < g.width && x' < g.width && y < g.height && y' < g.height
    ensures Neighbor(g.width, g.height, y * g.width + x, d) == Some(y' * g.width + x') <==> x' == x + Offset(d).x && y' == y + Offset(d).y
  {
    CellCoordinates(g.width, x, y);
    hide Column, Row, Offset;
    var nx, ny := x + Offset(d).x, y + Offset(d).y;
    if 0 <= nx < g.width && 0 <= ny < g.height { SameCell(g.width, nx, ny, x', y'); }
  }

  /** `(x', y')` lies directly beside or above or below `(x, y)`. */
  ghost predicate Beside(x: int, y: int, x': int, y': int) {
    (x == x' && (y == y' + 1 || y' == y + 1)) || (y == y' && (x == x' + 1 || x' == x + 1))
  }

  lemma OffsetsAreBeside(x: int, y: int, x': int, y': int)
    ensures Beside(x, y, x', y') <==> exists d: Direction :: x' == x + Offset(d).x && y' == y + Offset(d).y
  {
    assert Offset(Left) == Point(-1, 0) && Offset(Right) == Point(1, 0) && Offset(Up) == Point(0, -1) && Offset(Down) == Point(0, 1);
  }

  /** Two cells are linked when they have the same colour and lie beside or above each other. */
  lemma LinkedInCoordinates(g: Grid, x: nat, y: nat, x': nat, y': nat, i: nat, j: nat)
    requires g.Valid() && x < g.width && x' < g.width && y < g.height && y' < g.height
    requires i == y * g.width + x && j == y' * g.width + x'
    ensures i < |g.colors| && j < |g.colors|
    ensures Linked(g, i, j) <==> g.colors[i] == g.colors[j] && Beside(x, y, x', y')
  {
    hide Column, Row, Neighbor, Beside, Offset;
    CellInRange(g.width, g.height, x, y);
    CellInRange(g.width, g.height, x', y');
    forall d: Direction ensures Neighbor(g.width, g.height, i, d) == Some(j) <==> x' == x + Offset(d).x && y' == y + Offset(d).y {
      NeighborInCoordinates(g, x, y, x', y', d);
    }
    OffsetsAreBeside(x, y, x', y');
  }

  /** The outline is listed in the image's pixels; a surface touches the edge with a cell in the first or last row or column. */
  lemma CellsInCoordinates(left: int, top: int, step: int, width: nat, height: nat, x: nat, y: nat)
    requires x < width && y < height
    ensures Pixel(left, top, step, width, y * width + x) == Point(left + x * step, top + y * step)
    ensures TouchesEdge(width, height, y * width + x) <==> x == 0 || y == 0 || x == width - 1 || y == height - 1
  {
    CellCoordinates(width, x, y);
    hide Column, Row;
  }

  // ----- all surfaces of a mask -----

  datatype Surface = Surface(seed: nat, color: nat, queue: seq<nat>, boundary: seq<Point>, touchesEdge: bool)

  /** A surface of `g`, complete, with a boundary list that outlines it. */
  ghost predicate IsSurfaceOf(g: Grid, left: int, top: int, step: int, s: Surface)
    requires g.Valid()
  {
    && s.seed < |g.colors| && s.color == g.colors[s.seed] != 0
    && (s.touchesEdge <==> exists i :: i in s.queue && TouchesEdge(g.width, g.height, i))
    && exists rim :: IsSurface(g, s.seed, s.queue, rim) && s.boundary == Pixels(left, top, step, g.width, rim)
  }

  ghost predicate Disjoint(surfaces: seq<Surface>) {
    forall a, b, i :: 0 <= a < b < |surfaces| && i in surfaces[a].queue ==> i !in surfaces[b].queue
  }

  ghost predicate Covers(surfaces: seq<Surface>, cells: set<nat>) {
    forall i :: i in cells <==> exists a :: 0 <= a < |surfaces| && i in surfaces[a].queue
  }

  ghost function Colored(g: Grid): set<nat> {
    set i: nat | i < |g.colors| && g.colors[i] != 0
  }

  /** The surfaces are the connected components of the coloured cells: each once, none missing. */
  ghost predicate IsPartition(g: Grid, left: int, top: int, step: int, surfaces: seq<Surface>)
    requires g.Valid()
  {
    && (forall a :: 0 <= a < |surfaces| ==> IsSurfaceOf(g, left, top, step, surfaces[a]))
    && Disjoint(surfaces)
    && Covers(surfaces, Colored(g))
  }

  /** A surface found after other components were erased is a surface of the original mask. */
  lemma SurfaceOfOriginal(g: Grid, gone: set<nat>, seed: nat, queue: seq<nat>, rim: seq<nat>)
    requires g.Valid() && Closed(g, gone)
    requires var e := Erased(g, gone); e.Valid() && seed < |g.colors| && e.colors[seed] != 0 && IsSurface(e, seed, queue, rim)
    ensures IsSurface(g, seed, queue, rim)
    ensures forall i :: i in queue ==> i !in gone
    ensures Closed(g, gone + (set i | i in queue))
  {
    var e := Erased(g, gone);
    forall i: nat ensures i in queue <==> i < |g.colors| && Connected(g, seed, i) {
      ErasedKeepsConnections(g, gone, seed, i);
    }
    forall i, d: Direction | i in queue ensures Inside(g, i, d) <==> Inside(e, i, d) {
      var n := Neighbor(g.width, g.height, i, d);
      if n.Some? { ErasedLinks(g, gone, i, n.value); }
    }
    forall k | 0 <= k < |queue| && queue[k] < |g.colors| && OnRim(g, queue[k]) ensures queue[k] in rim {
      assert queue[k] in queue;
      var d: Direction :| !Inside(g, queue[k], d);
      assert OnRim(e, queue[k]);
    }
    forall i, j | i in gone + (set i | i in queue) && Linked(g, i, j) ensures j in gone + (set i | i in queue) {
      if i in queue { ConnectedExtends(g, seed, i, j); }
    }
  }

  lemma ErasedMore(g: Grid, gone: set<nat>, more: set<nat>)
    requires g.Valid()
    ensures Erased(Erased(g, gone), more).colors == Erased(g, gone + more).colors
  {
  }

  lemma NothingErased(g: Grid)
    requires g.Valid()
    ensures Erased(g, {}) == g
  {
    assert Erased(g, {}).colors == g.colors;
  }

  /** What is known when all seeds below `seed` have been tried. */
  ghost predicate Extracting(g: Grid, left: int, top: int, step: int, surfaces: seq<Surface>, gone: set<nat>, seed: nat, mask: seq<nat>)
    requires g.Valid()
  {
    && mask == Erased(g, gone).colors
    && Closed(g, gone)
    && gone <= Colored(g)
    && (forall i :: 0 <= i < seed && i < |mask| ==> mask[i] == 0)
    && (forall a :: 0 <= a < |surfaces| ==> IsSurfaceOf(g, left, top, step, surfaces[a]))
    && Disjoint(surfaces)
    && Covers(surfaces, gone)
  }

  lemma ExtractionGrows(g: Grid, left: int, top: int, step: int, surfaces: seq<Surface>, gone: set<nat>, s: Surface, rim: seq<nat>, mask: seq<nat>)
    requires g.Valid() && Extracting(g, left, top, step, surfaces, gone, s.seed, mask)
    requires s.seed < |mask| && mask[s.seed] == s.color != 0
    requires var e := Erased(g, gone);
             && e.Valid() && IsSurface(e, s.seed, s.queue, rim) && s.boundary == Pixels(left, top, step, g.width, rim)
             && (s.touchesEdge <==> exists i :: i in s.queue && TouchesEdge(g.width, g.height, i))
    ensures Extracting(g, left, top, step, surfaces + [s], gone + (set i | i in s.queue), s.seed + 1,
                       Erased(Erased(g, gone), (set i | i in s.queue)).colors)
  {
    var more := set i | i in s.queue;
    SurfaceOfOriginal(g, gone, s.seed, s.queue, rim);
    ErasedMore(g, gone, more);
    CoversGrows(surfaces, gone, s);
    SurfaceIsColored(g, s.seed, s.queue, rim);
    assert IsSurfaceOf(g, left, top, step, s);
    hide IsSurface, Connected, Closed, Covers, Disjoint, IsSurfaceOf;
    var all := surfaces + [s];
    forall a | 0 <= a < |all| ensures IsSurfaceOf(g, left, top, step, all[a]) {
    }
  }

  lemma SurfaceIsColored(g: Grid, seed: nat, queue: seq<nat>, rim: seq<nat>)
    requires g.Valid() && IsSurface(g, seed, queue, rim) && g.colors[seed] != 0
    ensures seed in queue
    ensures (set i | i in queue) <= Colored(g)
  {
    ConnectedToItself(g, seed);
  }

  lemma CoversGrows(surfaces: seq<Surface>, gone: set<nat>, s: Surface)
    requires Covers(surfaces, gone) && Disjoint(surfaces)
    requires forall i :: i in s.queue ==> i !in gone
    ensures Covers(surfaces + [s], gone + (set i | i in s.queue))
    ensures Disjoint(surfaces + [s])
  {
    var all, more := surfaces + [s], (set i | i in s.queue);
    forall i ensures i in gone + more <==> exists a :: 0 <= a < |all| && i in all[a].queue {
      if i in gone { var a :| 0 <= a < |surfaces| && i in surfaces[a].queue; assert i in all[a].queue; }
      if i in more { assert i in all[|surfaces|].queue; }
    }
    forall a, b, i | 0 <= a < b < |all| && i in all[a].queue ensures i !in all[b].queue {
      if b == |surfaces| { assert i in surfaces[a].queue; assert i in gone; }
    }
  }

  /** Scans every seed and floods the surfaces it starts. */
  method ExtractSurfaces(mask: array<nat>, width: nat, height: nat, left: int, top: int, step: int) returns (surfaces: seq<Surface>)
    requires mask.Length == width * height
    modifies mask
    ensures forall i :: 0 <= i < mask.Length ==> mask[i] == 0
    ensures mask.Length == 0 ==> surfaces == []
    ensures mask.Length > 0 ==> IsPartition(Grid(width, height, old(mask[..])), left, top, step, surfaces)
  {
    ghost var g := Grid(width, height, mask[..]);
    ghost var gone: set<nat> := {};
    surfaces := [];
    if mask.Length > 0 { NothingErased(g); }
    hide Closed, Disjoint, IsSurfaceOf, Covers, Erased, IsSurface;
    assert mask.Length > 0 ==> Extracting(g, left, top, step, [], {}, 0, mask[..]) by {
      if mask.Length > 0 { ExtractionStarts(g, left, top, step); }
    }
    for seed := 0 to mask.Length
      invariant mask.Length > 0 ==> g.Valid() && Extracting(g, left, top, step, surfaces, gone, seed, mask[..])
      invariant mask.Length == 0 ==> surfaces == []
    {
      var color := mask[seed];
      if color == 0 { continue; }
      ghost var e, before := Erased(g, gone), mask[..];
      ErasedIsValid(g, gone, before);
      var queue, boundary, touchesEdge; ghost var rim;
      queue, boundary, touchesEdge, rim := Fill(mask, width, height, seed, left, top, step, e);
      var surface := Surface(seed, color, queue, boundary, touchesEdge);
      ExtractionGrows(g, left, top, step, surfaces, gone, surface, rim, before);
      surfaces, gone := surfaces + [surface], gone + (set i | i in queue);
    }
    if mask.Length > 0 { ExtractionEnds(g, left, top, step, surfaces, gone, mask[..]); }
  }

  lemma ExtractionStarts(g: Grid, left: int, top: int, step: int)
    requires g.Valid()
    ensures Extracting(g, left, top, step, [], {}, 0, g.colors)
  {
    NothingErased(g);
  }

  lemma ErasedIsValid(g: Grid, gone: set<nat>, mask: seq<nat>)
    requires g.Valid() && mask == Erased(g, gone).colors
    ensures Erased(g, gone).Valid() && Erased(g, gone) == Grid(g.width, g.height, mask)
  {
  }

  lemma ExtractionEnds(g: Grid, left: int, top: int, step: int, surfaces: seq<Surface>, gone: set<nat>, mask: seq<nat>)
    requires g.Valid() && Extracting(g, left, top, step, surfaces, gone, |g.colors|, mask)
    ensures IsPartition(g, left, top, step, surfaces)
    ensures forall i :: 0 <= i < |mask| ==> mask[i] == 0
  {
    forall i | i in Colored(g) ensures i in gone {
      assert mask[i] == 0;
    }
    assert gone == Colored(g);
  }
}
