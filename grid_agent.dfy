/**
 * `SheepAgentGrid`: a sheep that finds its neighbours by scanning the 3x3 block of
 * grid cells around its own cell in `FlockManagerGrid.spatialGrid`, keeping the other
 * sheep within `neighborDistance`.
 *
 * The headline result is `GridQueryIsBruteForce`: when the cell size is at least the
 * neighbour radius, the scan accepts exactly the sheep a brute-force pass over all
 * registered sheep would accept, so the steering computed from it is the same.
 */
module GridAgent {
  import opened Wrappers
  import opened Geometry
  import opened Agents
  import opened GridIndex
  import opened Steering

  // ---------------------------------------------------------------------------
  // The 3x3 neighbour query
  // ---------------------------------------------------------------------------

  /** The row offset `x` of the `k`-th cell of the 3x3 scan. */
  function RowOffset(k: int): int {
    if k < 3 then -1 else if k < 6 then 0 else 1
  }

  /** The nine cells around `c`, in the order of the loops `for x in -1..1`, `for y in -1..1`. */
  function Around(c: Cell): (cells: seq<Cell>)
    ensures |cells| == 9
  {
    seq(9, k => (c.0 + RowOffset(k), c.1 + (k - 3 * (RowOffset(k) + 1) - 1)))
  }

  /** Loop iteration `(dx, dy)` visits entry `3 * (dx + 1) + (dy + 1)` of `Around`. */
  lemma AroundAt(c: Cell, dx: int, dy: int)
    requires -1 <= dx <= 1 && -1 <= dy <= 1
    ensures Around(c)[3 * (dx + 1) + (dy + 1)] == (c.0 + dx, c.1 + dy)
  {
    assert RowOffset(3 * (dx + 1) + (dy + 1)) == dx;
  }

  /** The scan covers exactly the cells at most one step away along each axis... */
  lemma AroundMembers(c: Cell, d: Cell)
    ensures d in Around(c) <==> c.0 - 1 <= d.0 <= c.0 + 1 && c.1 - 1 <= d.1 <= c.1 + 1
  {
    if c.0 - 1 <= d.0 <= c.0 + 1 && c.1 - 1 <= d.1 <= c.1 + 1 {
      AroundAt(c, d.0 - c.0, d.1 - c.1);
    }
    if d in Around(c) {
      var k :| 0 <= k < 9 && Around(c)[k] == d;
      assert -1 <= RowOffset(k) <= 1 && -1 <= k - 3 * (RowOffset(k) + 1) - 1 <= 1;
    }
  }

  /** ...and visits each of them once. */
  lemma AroundNoDups(c: Cell)
    ensures NoDups(Around(c))
  {
    var cells := Around(c);
    forall i, j | 0 <= i < j < 9
      ensures cells[i] != cells[j]
    {
      assert cells[i] == (c.0 + RowOffset(i), c.1 + (i - 3 * (RowOffset(i) + 1) - 1));
      assert cells[j] == (c.0 + RowOffset(j), c.1 + (j - 3 * (RowOffset(j) + 1) - 1));
    }
  }

  /** The lists of `cells` (a missing key reads as empty), concatenated in order. */
  function Scan(grid: map<Cell, seq<AgentId>>, cells: seq<Cell>): seq<AgentId> {
    if cells == [] then []
    else Scan(grid, cells[..|cells| - 1]) + Lookup(grid, cells[|cells| - 1])
  }

  /** A scan meets exactly the sheep listed under one of its cells. */
  lemma {:induction false} ScanMembers(grid: map<Cell, seq<AgentId>>, cells: seq<Cell>, x: AgentId)
    ensures x in Scan(grid, cells) <==> exists c :: c in cells && x in Lookup(grid, c)
  {
    if cells != [] {
      var init, last := cells[..|cells| - 1], cells[|cells| - 1];
      assert cells == init + [last];
      ScanMembers(grid, init, x);
    }
  }

  /** The test an entry of a scanned list must pass: not itself, and within the radius. */
  predicate Accepts(vm: VectorMath, world: World, self: AgentId, r: real, x: AgentId) {
    x != self && vm.Distance(world(x).position, world(self).position) <= r
  }

  /** The entries of `ids` that pass `Accepts`, in order. */
  function Accepted(vm: VectorMath, world: World, self: AgentId, r: real, ids: seq<AgentId>): seq<AgentId> {
    if ids == [] then []
    else
      var rest := Accepted(vm, world, self, r, ids[..|ids| - 1]);
      var x := ids[|ids| - 1];
      if Accepts(vm, world, self, r, x) then rest + [x] else rest
  }

  /** The filter keeps exactly the entries that pass, and never more entries than it is given. */
  lemma {:induction false} AcceptedMembers(vm: VectorMath, world: World, self: AgentId, r: real, ids: seq<AgentId>)
    ensures var out := Accepted(vm, world, self, r, ids);
            && |out| <= |ids|
            && forall x :: x in out <==> x in ids && Accepts(vm, world, self, r, x)
  {
    if ids != [] {
      var init := ids[..|ids| - 1];
      assert ids == init + [ids[|ids| - 1]];
      AcceptedMembers(vm, world, self, r, init);
    }
  }

  /** Filtering a list without duplicates leaves one without duplicates. */
  lemma {:induction false} AcceptedNoDups(vm: VectorMath, world: World, self: AgentId, r: real, ids: seq<AgentId>)
    requires NoDups(ids)
    ensures NoDups(Accepted(vm, world, self, r, ids))
  {
    if ids != [] {
      var init, x := ids[..|ids| - 1], ids[|ids| - 1];
      assert ids == init + [x];
      NoDupsPrefix(ids, |init|);
      AcceptedNoDups(vm, world, self, r, init);
      AcceptedMembers(vm, world, self, r, init);
      var rest := Accepted(vm, world, self, r, init);
      if Accepts(vm, world, self, r, x) {
        assert x !in init;
        NoDupsAppend(rest, [x]);
      }
    }
  }

  /** The neighbours `CalculateFlockingGrid` accepts, in the order it visits them. */
  function GridNeighbours(vm: VectorMath, world: World, self: AgentId, grid: map<Cell, seq<AgentId>>, g: Positive, r: real): seq<AgentId> {
    Accepted(vm, world, self, r, Scan(grid, Around(AgentCell(world, g, self))))
  }

  /** The reference: every registered sheep other than `self` within the radius. */
  function BruteForce(vm: VectorMath, world: World, self: AgentId, r: real, sheep: seq<AgentId>): seq<AgentId> {
    Accepted(vm, world, self, r, sheep)
  }

  /** In a freshly rebuilt grid, the list under `c` is exactly the sheep standing in `c`. */
  lemma FiledLookup(keys: set<Cell>, sheep: seq<AgentId>, world: World, g: Positive, c: Cell)
    ensures Lookup(Filed(keys, sheep, world, g), c) == CellMembers(sheep, world, g, c)
    ensures forall a :: a in Lookup(Filed(keys, sheep, world, g), c) <==> a in sheep && AgentCell(world, g, a) == c
  {
    if c !in Filed(keys, sheep, world, g) {
      UnoccupiedCellEmpty(sheep, world, g, c);
    }
    CellMembersMembers(sheep, world, g, c);
  }

  /** A sheep within `r <= g` of `self` stands at most one cell away from it along each axis. */
  lemma NearbyCellIsAround(vm: VectorMath, world: World, g: Positive, r: real, self: AgentId, x: AgentId)
    requires vm.Valid() && 0.0 <= r <= g
    requires vm.Distance(world(x).position, world(self).position) <= r
    ensures var cx, cs := AgentCell(world, g, x), AgentCell(world, g, self);
      -1 <= cx.0 - cs.0 <= 1 && -1 <= cx.1 - cs.1 <= 1
  {
    var px, ps := world(x).position, world(self).position;
    LengthVersusSquare(vm, Sub(px, ps), r);
    CoordinateWithinDistance(px, ps, r);
    CellIndexClose(px.x, ps.x, g);
    CellIndexClose(px.z, ps.z, g);
  }

  /**
   * With `neighborDistance <= gridSize`, the grid query accepts a sheep exactly when
   * the brute-force pass over `allSheep` does.
   */
  lemma GridQueryMembers(vm: VectorMath, world: World, self: AgentId, keys: set<Cell>, sheep: seq<AgentId>, g: Positive, r: real, x: AgentId)
    requires vm.Valid() && 0.0 <= r <= g
    ensures x in GridNeighbours(vm, world, self, Filed(keys, sheep, world, g), g, r)
        <==> x in BruteForce(vm, world, self, r, sheep)
  {
    var grid := Filed(keys, sheep, world, g);
    var cells := Around(AgentCell(world, g, self));
    AcceptedMembers(vm, world, self, r, sheep);
    AcceptedMembers(vm, world, self, r, Scan(grid, cells));
    ScanMembers(grid, cells, x);
    if x in BruteForce(vm, world, self, r, sheep) {
      var cx := AgentCell(world, g, x);
      NearbyCellIsAround(vm, world, g, r, self, x);
      AroundMembers(AgentCell(world, g, self), cx);
      FiledLookup(keys, sheep, world, g, cx);
      assert x in Lookup(grid, cx);
    }
    if x in GridNeighbours(vm, world, self, grid, g, r) {
      var c :| c in cells && x in Lookup(grid, c);
      FiledLookup(keys, sheep, world, g, c);
    }
  }

  /** Scanning distinct cells of a grid rebuilt from distinct sheep meets no sheep twice. */
  lemma {:induction false} ScanNoDups(keys: set<Cell>, sheep: seq<AgentId>, world: World, g: Positive, cells: seq<Cell>)
    requires NoDups(sheep) && NoDups(cells)
    ensures NoDups(Scan(Filed(keys, sheep, world, g), cells))
  {
    if cells != [] {
      var grid := Filed(keys, sheep, world, g);
      var init, last := cells[..|cells| - 1], cells[|cells| - 1];
      NoDupsPrefix(cells, |init|);
      ScanNoDups(keys, sheep, world, g, init);
      FiledLookup(keys, sheep, world, g, last);
      CellMembersNoDups(sheep, world, g, last);
      forall x | x in Scan(grid, init)
        ensures x !in Lookup(grid, last)
      {
        ScanMembers(grid, init, x);
        var c :| c in init && x in Lookup(grid, c);
        FiledLookup(keys, sheep, world, g, c);
        assert c != last;
      }
      NoDupsAppend(Scan(grid, init), Lookup(grid, last));
    }
  }

  /**
   * The headline property of the grid: with `neighborDistance <= gridSize` and each
   * sheep registered once, the 3x3 scan yields the brute-force neighbours, each once.
   */
  lemma GridQueryIsBruteForce(vm: VectorMath, world: World, self: AgentId, keys: set<Cell>, sheep: seq<AgentId>, g: Positive, r: real)
    requires vm.Valid() && 0.0 <= r <= g && NoDups(sheep)
    ensures var found := GridNeighbours(vm, world, self, Filed(keys, sheep, world, g), g, r);
            multiset(found) == multiset(BruteForce(vm, world, self, r, sheep))
  {
    var grid := Filed(keys, sheep, world, g);
    var found := GridNeighbours(vm, world, self, grid, g, r);
    var brute := BruteForce(vm, world, self, r, sheep);
    AroundNoDups(AgentCell(world, g, self));
    ScanNoDups(keys, sheep, world, g, Around(AgentCell(world, g, self)));
    AcceptedNoDups(vm, world, self, r, Scan(grid, Around(AgentCell(world, g, self))));
    AcceptedNoDups(vm, world, self, r, sheep);
    forall x
      ensures x in found <==> x in brute
    {
      GridQueryMembers(vm, world, self, keys, sheep, g, r, x);
    }
    NoDupsSameMembers(found, brute);
  }

  /** Hence the grid agent steers exactly as it would with brute-force neighbours. */
  lemma GridSteeringIsBruteForce(vm: VectorMath, world: World, self: AgentId, keys: set<Cell>, sheep: seq<AgentId>, g: Positive, r: real, maxForce: real)
    requires vm.Valid() && 0.0 <= r <= g && NoDups(sheep)
    ensures Gather(vm, world, world(self).position, GridNeighbours(vm, world, self, Filed(keys, sheep, world, g), g, r), maxForce)
         == Gather(vm, world, world(self).position, BruteForce(vm, world, self, r, sheep), maxForce)
  {
    GridQueryIsBruteForce(vm, world, self, keys, sheep, g, r);
    GatherPermutation(vm, world, world(self).position,
      GridNeighbours(vm, world, self, Filed(keys, sheep, world, g), g, r), BruteForce(vm, world, self, r, sheep), maxForce);
  }

  // ---------------------------------------------------------------------------
  // The agent
  // ---------------------------------------------------------------------------

  /** One step of a cell's loop: an accepted sheep adds its contribution, any other adds nothing. */
  lemma ScanStep(vm: VectorMath, world: World, self: AgentId, r: real, ids: seq<AgentId>, x: AgentId, maxForce: real)
    ensures var pos := world(self).position;
            var acc := Gather(vm, world, pos, Accepted(vm, world, self, r, ids), maxForce);
            (Gather(vm, world, pos, Accepted(vm, world, self, r, ids + [x]), maxForce)
             == if Accepts(vm, world, self, r, x) then Plus(acc, Contribution(vm, pos, world(x), maxForce)) else acc)
  {
    assert (ids + [x])[..|ids|] == ids;
    if Accepts(vm, world, self, r, x) {
      GatherSnoc(vm, world, world(self).position, Accepted(vm, world, self, r, ids), x, maxForce);
    }
  }

  /** One more cell appends its list to the scan. */
  lemma ScanSnoc(grid: map<Cell, seq<AgentId>>, cells: seq<Cell>, k: nat)
    requires k < |cells|
    ensures Scan(grid, cells[..k + 1]) == Scan(grid, cells[..k]) + Lookup(grid, cells[k])
  {
    assert cells[..k + 1][..k] == cells[..k];
  }

  lemma AddZero(v: Vec3)
    ensures Add(v, Zero) == v
  {
  }

  /**
   * What `CalculateFlockingGrid` returns once `idle` holds the state after the
   * hysteresis step: the combination of the follow term and the sums over the grid
   * neighbours.
   */
  function GridSteer(vm: VectorMath, world: World, self: AgentId, leader: Vec3, idle: bool,
                     grid: map<Cell, seq<AgentId>>, g: Positive, r: real, maxForce: real): Vec3
  {
    var pos := world(self).position;
    Combine(vm, pos, idle, FollowVector(vm, pos, leader, idle),
            Gather(vm, world, pos, GridNeighbours(vm, world, self, grid, g, r), maxForce))
  }

  /**
   * A sheep of the grid variant. `velocity` and `heading` stand for its rigidbody's
   * `velocity` and `rotation`; the serialized tunables are fixed at construction, and
   * `speed` is the value `Start` draws.
   */
  class SheepAgentGrid {
    const id: AgentId
    var manager: FlockManagerGrid?
    var isIdle: bool
    var velocity: Vec3
    var heading: Vec3
    const speed: real
    const movementSmoothness: real
    const rotationSpeed: real
    const maxSeparationForce: real
    const deadZoneRadius: real

    constructor (id: AgentId, speed: real, movementSmoothness: real, rotationSpeed: real,
                 maxSeparationForce: real, deadZoneRadius: real, velocity: Vec3, heading: Vec3)
      ensures this.id == id && manager == null && !isIdle
      ensures this.speed == speed && this.movementSmoothness == movementSmoothness
      ensures this.rotationSpeed == rotationSpeed && this.maxSeparationForce == maxSeparationForce
      ensures this.deadZoneRadius == deadZoneRadius
      ensures this.velocity == velocity && this.heading == heading
    {
      this.id := id;
      this.speed := speed;
      this.movementSmoothness := movementSmoothness;
      this.rotationSpeed := rotationSpeed;
      this.maxSeparationForce := maxSeparationForce;
      this.deadZoneRadius := deadZoneRadius;
      this.velocity := velocity;
      this.heading := heading;
      manager := null;
      isIdle := false;
    }

    /** The tunables `FixedUpdate` reads, for a tick of length `dt`. */
    function DriveFor(dt: real): Drive {
      Drive(speed, deadZoneRadius, movementSmoothness * dt, rotationSpeed * dt, DampRate * dt)
    }

    /**
     * Steps the hysteresis on `isIdle`, builds the follow term, then scans the nine
     * cells around its own cell, accumulating every other sheep within
     * `neighborDistance`; the result combines the sums with the follow term.
     */
    method CalculateFlockingGrid(vm: VectorMath, world: World, leader: Vec3) returns (steer: Vec3)
      requires manager != null
      modifies this`isIdle
      ensures isIdle == NextIdle(old(isIdle), LeaderDistance(vm, world(id).position, leader))
      ensures steer == GridSteer(vm, world, id, leader, isIdle, manager.spatialGrid, manager.gridSize,
                                 manager.neighborDistance, maxSeparationForce)
    {
      var pos := world(id).position;
      var leaderGroundPos := LeaderOnGround(pos, leader);
      var distToLeader := vm.Distance(pos, leaderGroundPos);
      var follow := Zero;

      if isIdle {
        if distToLeader > StartDistance { isIdle := false; }
      } else {
        if distToLeader < StopDistance { isIdle := true; }
      }

      if !isIdle {
        var t := Clamp01((distToLeader - StopDistance) / (StartDistance - StopDistance));
        follow := Scale(vm.normalized(Sub(leaderGroundPos, pos)), t);
      } else if distToLeader > StopDistance + 1.0 {
        follow := Scale(vm.normalized(Sub(leaderGroundPos, pos)), IdleFollow);
      }

      var acc := ScanGrid(vm, world);
      steer := Combine(vm, pos, isIdle, follow, acc);
    }

    /**
     * The 3x3 scan: visits the cells around its own cell in loop order and accumulates
     * every other sheep of their lists that lies within `neighborDistance`.
     */
    method ScanGrid(vm: VectorMath, world: World) returns (acc: Flock)
      requires manager != null
      ensures acc == Gather(vm, world, world(id).position,
                            GridNeighbours(vm, world, id, manager.spatialGrid, manager.gridSize, manager.neighborDistance),
                            maxSeparationForce)
    {
      var pos := world(id).position;
      var grid, r := manager.spatialGrid, manager.neighborDistance;
      var myGridPos := CellOf(pos, manager.gridSize);
      ghost var cells := Around(myGridPos);
      acc := NoNeighbours;

      var x := -1;
      while x <= 1
        invariant -1 <= x <= 2
        invariant acc == Gather(vm, world, pos, Accepted(vm, world, id, r, Scan(grid, cells[..3 * (x + 1)])), maxSeparationForce)
      {
        acc := ScanRow(vm, world, myGridPos, x, acc);
        x := x + 1;
      }
      assert 3 * (x + 1) == 9 && cells[..9] == cells;
    }

    /** The inner loop of the 3x3 scan: the three cells `(x, -1)`, `(x, 0)`, `(x, 1)` around `myGridPos`. */
    method ScanRow(vm: VectorMath, world: World, myGridPos: Cell, x: int, start: Flock) returns (acc: Flock)
      requires manager != null && -1 <= x <= 1
      requires start == Gather(vm, world, world(id).position,
                               Accepted(vm, world, id, manager.neighborDistance,
                                        Scan(manager.spatialGrid, Around(myGridPos)[..3 * (x + 1)])),
                               maxSeparationForce)
      ensures acc == Gather(vm, world, world(id).position,
                            Accepted(vm, world, id, manager.neighborDistance,
                                     Scan(manager.spatialGrid, Around(myGridPos)[..3 * (x + 2)])),
                            maxSeparationForce)
    {
      acc := start;
      ghost var k := 3 * (x + 1);
      var y := -1;
      while y <= 1
        invariant -1 <= y <= 2 && k == 3 * (x + 1) + (y + 1)
        invariant acc == Gather(vm, world, world(id).position,
                                Accepted(vm, world, id, manager.neighborDistance,
                                         Scan(manager.spatialGrid, Around(myGridPos)[..k])),
                                maxSeparationForce)
      {
        acc := ScanAt(vm, world, myGridPos, x, y, k, acc);
        k := k + 1;
        y := y + 1;
      }
      assert k == 3 * (x + 2);
    }

    /**
     * One step of the 3x3 scan: the cell `(x, y)` around `myGridPos`, entry `k` of
     * `Around`, or nothing when it has no list.
     */
    method ScanAt(vm: VectorMath, world: World, myGridPos: Cell, x: int, y: int, ghost k: nat, start: Flock)
      returns (acc: Flock)
      requires manager != null && -1 <= x <= 1 && -1 <= y <= 1 && k == 3 * (x + 1) + (y + 1)
      requires start == Gather(vm, world, world(id).position,
                               Accepted(vm, world, id, manager.neighborDistance,
                                        Scan(manager.spatialGrid, Around(myGridPos)[..k])),
                               maxSeparationForce)
      ensures acc == Gather(vm, world, world(id).position,
                            Accepted(vm, world, id, manager.neighborDistance,
                                     Scan(manager.spatialGrid, Around(myGridPos)[..k + 1])),
                            maxSeparationForce)
    {
      var grid := manager.spatialGrid;
      ghost var seen := Scan(grid, Around(myGridPos)[..k]);
      var cell := (myGridPos.0 + x, myGridPos.1 + y);
      AroundAt(myGridPos, x, y);
      ScanSnoc(grid, Around(myGridPos), k);
      if cell in grid {
        acc := ScanCell(vm, world, manager.neighborDistance, grid[cell], seen, start);
      } else {
        assert seen + Lookup(grid, cell) == seen;
        acc := start;
      }
    }

    /**
     * The loop over one cell's list: skips itself, and adds position, heading, the
     * separation push and one to the count for every sheep within `r`.
     */
    method ScanCell(vm: VectorMath, world: World, r: real, cellSheep: seq<AgentId>, ghost before: seq<AgentId>, start: Flock)
      returns (acc: Flock)
      requires start == Gather(vm, world, world(id).position, Accepted(vm, world, id, r, before), maxSeparationForce)
      ensures acc == Gather(vm, world, world(id).position, Accepted(vm, world, id, r, before + cellSheep), maxSeparationForce)
    {
      var pos := world(id).position;
      var cohesion, separation, alignment, groupSize := start.cohesion, start.separation, start.alignment, start.groupSize;
      var i := 0;
      ghost var seen := before;
      assert before + cellSheep[..0] == before;
      while i < |cellSheep|
        invariant 0 <= i <= |cellSheep| && seen == before + cellSheep[..i]
        invariant Flock(cohesion, separation, alignment, groupSize)
               == Gather(vm, world, pos, Accepted(vm, world, id, r, seen), maxSeparationForce)
      {
        var neighbor := cellSheep[i];
        assert before + cellSheep[..i + 1] == seen + [neighbor];
        ScanStep(vm, world, id, r, seen, neighbor, maxSeparationForce);
        seen := seen + [neighbor];
        if neighbor != id {
          var neighborPos := world(neighbor).position;
          var dist := vm.Distance(neighborPos, pos);
          if dist <= r {
            cohesion := Add(cohesion, neighborPos);
            alignment := Add(alignment, world(neighbor).forward);
            if dist < SeparationRadius {
              var s := (SeparationRadius - dist) / SeparationRadius;
              var dir := vm.normalized(Sub(pos, neighborPos));
              var force := Scale(Scale(dir, s), s);
              force := vm.ClampMagnitude(force, maxSeparationForce);
              separation := Add(separation, force);
            } else {
              AddZero(separation);
            }
            groupSize := groupSize + 1;
          }
        }
        i := i + 1;
      }
      assert seen == before + cellSheep by {
        assert cellSheep[..i] == cellSheep;
      }
      acc := Flock(cohesion, separation, alignment, groupSize);
    }

    /**
     * Without a manager nothing happens. Otherwise the steering vector, flattened to
     * the ground, drives one of the three branches of `Move`: the idle dead zone, a
     * turn and speed-up towards it, or damping.
     */
    method FixedUpdate(vm: VectorMath, world: World, leader: Vec3, dt: real)
      modifies this`isIdle, this`velocity, this`heading
      ensures old(manager) == null ==> isIdle == old(isIdle) && velocity == old(velocity) && heading == old(heading)
      ensures manager != null ==>
        && isIdle == NextIdle(old(isIdle), LeaderDistance(vm, world(id).position, leader))
        && Motion(velocity, heading)
           == Move(vm, GridSteer(vm, world, id, leader, isIdle, manager.spatialGrid, manager.gridSize,
                                 manager.neighborDistance, maxSeparationForce),
                   Motion(old(velocity), old(heading)), isIdle, DriveFor(dt))
    {
      if manager == null {
        return;
      }
      var moveDirection := CalculateFlockingGrid(vm, world, leader);
      var next := StepMotion(vm, moveDirection, Motion(velocity, heading), isIdle, DriveFor(dt));
      velocity, heading := next.velocity, next.heading;
    }
  }

  /**
   * The registration half of the spawn loop in `FlockManagerGrid.Start`: each spawned
   * object that carries a `SheepAgentGrid` (`null` when it does not) gets the manager
   * and is appended to `allSheep`, in spawn order.
   */
  method RegisterSpawned(manager: FlockManagerGrid, spawned: seq<SheepAgentGrid?>)
    modifies manager`allSheep, (set a | a in spawned && a != null)`manager
    ensures manager.allSheep == old(manager.allSheep) + SpawnedIds(spawned)
    ensures forall a :: a in spawned && a != null ==> a.manager == manager
  {
    var i := 0;
    while i < |spawned|
      invariant 0 <= i <= |spawned|
      invariant manager.allSheep == old(manager.allSheep) + SpawnedIds(spawned[..i])
      invariant forall a :: a in spawned[..i] && a != null ==> a.manager == manager
    {
      var agent := spawned[i];
      assert spawned[..i + 1] == spawned[..i] + [agent];
      SpawnedIdsSnoc(spawned[..i], agent);
      if agent != null {
        agent.manager := manager;
        manager.Register(agent.id);
      }
      i := i + 1;
    }
    assert spawned[..i] == spawned;
  }

  /** The handles of the spawned objects that carry an agent, in spawn order. */
  function SpawnedIds(spawned: seq<SheepAgentGrid?>): (ids: seq<AgentId>)
    ensures |ids| <= |spawned|
  {
    if spawned == [] then []
    else
      var init, last := spawned[..|spawned| - 1], spawned[|spawned| - 1];
      SpawnedIds(init) + (if last != null then [last.id] else [])
  }

  /** Every spawned agent is registered, and nothing else is. */
  lemma {:induction false} SpawnedIdsMembers(spawned: seq<SheepAgentGrid?>)
    ensures forall a :: a in spawned && a != null ==> a.id in SpawnedIds(spawned)
    ensures forall x :: x in SpawnedIds(spawned) ==> exists a :: a in spawned && a != null && a.id == x
  {
    if spawned != [] {
      var init, last := spawned[..|spawned| - 1], spawned[|spawned| - 1];
      assert spawned == init + [last];
      SpawnedIdsMembers(init);
    }
  }

  lemma SpawnedIdsSnoc(spawned: seq<SheepAgentGrid?>, a: SheepAgentGrid?)
    ensures SpawnedIds(spawned + [a]) == SpawnedIds(spawned) + (if a != null then [a.id] else [])
  {
    assert (spawned + [a])[..|spawned|] == spawned;
  }

  /**
   * Spawned agents with distinct handles, none of them registered yet, keep `allSheep`
   * free of duplicates: each agent is registered exactly once.
   */
  lemma {:induction false} SpawnedIdsNoDups(registered: seq<AgentId>, spawned: seq<SheepAgentGrid?>)
    requires NoDups(registered)
    requires forall i, j :: 0 <= i < j < |spawned| && spawned[i] != null && spawned[j] != null ==> spawned[i].id != spawned[j].id
    requires forall a :: a in spawned && a != null ==> a.id !in registered
    ensures NoDups(registered + SpawnedIds(spawned))
  {
    if spawned != [] {
      var init, last := spawned[..|spawned| - 1], spawned[|spawned| - 1];
      assert spawned == init + [last];
      SpawnedIdsNoDups(registered, init);
      if last != null {
        SpawnedIdsMembers(init);
        forall x | x in registered + SpawnedIds(init)
          ensures x != last.id
        {
          if x in SpawnedIds(init) {
            var a :| a in init && a != null && a.id == x;
            var i :| 0 <= i < |init| && init[i] == a;
            assert spawned[i] == a && spawned[|spawned| - 1] == last;
          }
        }
        NoDupsAppend(registered + SpawnedIds(init), [last.id]);
      }
      assert registered + SpawnedIds(spawned) == registered + SpawnedIds(init) + (if last != null then [last.id] else []);
    }
  }
}
