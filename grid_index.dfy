/**
 * The uniform spatial hash of FlockManagerGrid: a dictionary from integer cell
 * coordinate to the list of sheep standing in that cell, cleared and refilled once
 * per frame by `UpdateSpatialGrid`.
 */
module GridIndex {
  import opened Geometry
  import opened Agents

  /** `Vector2Int`: (cell column along x, cell row along z). */
  type Cell = (int, int)

  /** `new Vector2Int(FloorToInt(p.x / g), FloorToInt(p.z / g))` */
  function CellOf(p: Vec3, g: Positive): Cell {
    (CellIndex(p.x, g), CellIndex(p.z, g))
  }

  function AgentCell(world: World, g: Positive, a: AgentId): Cell {
    CellOf(world(a).position, g)
  }

  /** The agents of `sheep` standing in cell `c`, in their order in `sheep`. */
  function CellMembers(sheep: seq<AgentId>, world: World, g: Positive, c: Cell): (r: seq<AgentId>)
    ensures |r| <= |sheep|
  {
    if sheep == [] then []
    else
      var init, a := sheep[..|sheep| - 1], sheep[|sheep| - 1];
      var rest := CellMembers(init, world, g, c);
      if AgentCell(world, g, a) == c then rest + [a] else rest
  }

  /** A cell's list holds exactly the sheep standing in that cell. */
  lemma {:induction false} CellMembersMembers(sheep: seq<AgentId>, world: World, g: Positive, c: Cell)
    ensures forall a :: a in CellMembers(sheep, world, g, c) <==> a in sheep && AgentCell(world, g, a) == c
  {
    if sheep != [] {
      var init := sheep[..|sheep| - 1];
      assert sheep == init + [sheep[|sheep| - 1]];
      CellMembersMembers(init, world, g, c);
    }
  }

  /** The cells that hold at least one of `sheep`. */
  function Occupied(sheep: seq<AgentId>, world: World, g: Positive): set<Cell> {
    set a | a in sheep :: AgentCell(world, g, a)
  }

  /**
   * The dictionary a rebuild must leave behind: every key that existed before or is
   * now occupied, each holding exactly the sheep of its cell in `allSheep` order.
   */
  function Filed(keys: set<Cell>, sheep: seq<AgentId>, world: World, g: Positive): (grid: map<Cell, seq<AgentId>>)
    ensures grid.Keys == keys + Occupied(sheep, world, g)
    ensures forall c :: c in keys && c !in Occupied(sheep, world, g) ==> grid[c] == []
  {
    var grid := map c | c in keys + Occupied(sheep, world, g) :: CellMembers(sheep, world, g, c);
    forall c | c in keys && c !in Occupied(sheep, world, g)
      ensures grid[c] == []
    {
      UnoccupiedCellEmpty(sheep, world, g, c);
    }
    grid
  }

  lemma {:induction false} UnoccupiedCellEmpty(sheep: seq<AgentId>, world: World, g: Positive, c: Cell)
    requires c !in Occupied(sheep, world, g)
    ensures CellMembers(sheep, world, g, c) == []
  {
    if sheep != [] {
      var init, a := sheep[..|sheep| - 1], sheep[|sheep| - 1];
      forall b | b in init
        ensures AgentCell(world, g, b) != c
      {
        assert b in sheep;
      }
      assert a in sheep;
      UnoccupiedCellEmpty(init, world, g, c);
    }
  }

  lemma CellMembersSnoc(sheep: seq<AgentId>, a: AgentId, world: World, g: Positive, c: Cell)
    ensures CellMembers(sheep + [a], world, g, c)
         == CellMembers(sheep, world, g, c) + (if AgentCell(world, g, a) == c then [a] else [])
  {
    var s' := sheep + [a];
    assert s'[..|s'| - 1] == sheep && s'[|s'| - 1] == a;
  }

  lemma OccupiedSnoc(sheep: seq<AgentId>, a: AgentId, world: World, g: Positive)
    ensures Occupied(sheep + [a], world, g) == Occupied(sheep, world, g) + {AgentCell(world, g, a)}
  {
    var s' := sheep + [a];
    forall c | c in Occupied(s', world, g)
      ensures c in Occupied(sheep, world, g) + {AgentCell(world, g, a)}
    {
      var b :| b in s' && AgentCell(world, g, b) == c;
      if b != a { assert b in sheep; }
    }
    assert a in s';
    forall c | c in Occupied(sheep, world, g)
      ensures c in Occupied(s', world, g)
    {
      var b :| b in sheep && AgentCell(world, g, b) == c;
      assert b in s';
    }
  }

  /** `TryGetValue` on the dictionary, an absent key reading as an empty list. */
  function Lookup(grid: map<Cell, seq<AgentId>>, c: Cell): seq<AgentId> {
    if c in grid then grid[c] else []
  }

  class FlockManagerGrid {
    /** `spatialGrid`: cell coordinate -> the sheep filed under it. */
    var spatialGrid: map<Cell, seq<AgentId>>
    /** `allSheep`: every registered `SheepAgentGrid`, in registration order. */
    var allSheep: seq<AgentId>
    /** `gridSize`: the cell edge length. */
    const gridSize: Positive
    /** `neighborDistance`: the flocking radius the agents query with. */
    const neighborDistance: real

    constructor (gridSize: Positive, neighborDistance: real)
      ensures this.gridSize == gridSize && this.neighborDistance == neighborDistance
      ensures spatialGrid == map[] && allSheep == []
    {
      this.gridSize := gridSize;
      this.neighborDistance := neighborDistance;
      spatialGrid := map[];
      allSheep := [];
    }

    /**
     * Clears every list but keeps its key, then files each sheep under the cell of its
     * current position, appending in `allSheep` order.
     */
    method UpdateSpatialGrid(world: World)
      modifies this`spatialGrid
      ensures spatialGrid == Filed(old(spatialGrid).Keys, allSheep, world, gridSize)
    {
      ghost var keys := spatialGrid.Keys;
      ClearLists();
      FiledNone(keys, world, gridSize);
      var i := 0;
      ghost var done := [];
      while i < |allSheep|
        invariant 0 <= i <= |allSheep| && done == allSheep[..i]
        invariant spatialGrid == Filed(keys, done, world, gridSize)
      {
        var sheep := allSheep[i];
        var coord := AgentCell(world, gridSize, sheep);
        FileOne(spatialGrid, keys, done, sheep, world, gridSize);
        AddToCell(coord, sheep);
        assert allSheep[..i + 1] == done + [sheep];
        done := done + [sheep];
        i := i + 1;
      }
      assert done == allSheep by {
        assert allSheep[..i] == allSheep;
      }
    }

    /** Appends `sheep` to the list under `coord`, creating the list when the key is new. */
    method AddToCell(coord: Cell, sheep: AgentId)
      modifies this`spatialGrid
      ensures var keyed := if coord in old(spatialGrid) then old(spatialGrid) else old(spatialGrid)[coord := []];
              spatialGrid == keyed[coord := keyed[coord] + [sheep]]
    {
      if coord !in spatialGrid {
        spatialGrid := spatialGrid[coord := []];
      }
      spatialGrid := spatialGrid[coord := spatialGrid[coord] + [sheep]];
    }

    /** Empties every list of the dictionary in place; every key stays. */
    method ClearLists()
      modifies this`spatialGrid
      ensures spatialGrid == map k | k in old(spatialGrid).Keys :: []
    {
      var pending := spatialGrid.Keys;
      while pending != {}
        invariant pending <= old(spatialGrid).Keys && spatialGrid.Keys == old(spatialGrid).Keys
        invariant forall k :: k in spatialGrid.Keys - pending ==> spatialGrid[k] == []
        decreases pending
      {
        var k :| k in pending;
        spatialGrid := spatialGrid[k := []];
        pending := pending - {k};
      }
    }

    /** `allSheep.Add(agent)` for a spawned object that carries a `SheepAgentGrid`. */
    method Register(agent: AgentId)
      modifies this`allSheep
      ensures allSheep == old(allSheep) + [agent]
    {
      allSheep := allSheep + [agent];
    }
  }

  /** One step of the filing loop: add the key if missing, then append the sheep. */
  lemma FileOne(grid: map<Cell, seq<AgentId>>, keys: set<Cell>, sheep: seq<AgentId>, a: AgentId, world: World, g: Positive)
    requires grid == Filed(keys, sheep, world, g)
    ensures var c := CellOf(world(a).position, g);
            var keyed := if c in grid then grid else grid[c := []];
            keyed[c := keyed[c] + [a]] == Filed(keys, sheep + [a], world, g)
  {
    var c := AgentCell(world, g, a);
    var keyed := if c in grid then grid else grid[c := []];
    assert keyed[c := keyed[c] + [a]] == grid[c := Lookup(grid, c) + [a]];
    FiledSnoc(keys, sheep, a, world, g);
  }

  /** With no sheep, every kept key holds an empty list. */
  lemma FiledNone(keys: set<Cell>, world: World, g: Positive)
    ensures Filed(keys, [], world, g) == map k | k in keys :: []
  {
    assert Occupied([], world, g) == {};
  }

  /** Filing one more sheep appends it to its own cell's list and changes no other list. */
  lemma FiledSnoc(keys: set<Cell>, sheep: seq<AgentId>, a: AgentId, world: World, g: Positive)
    ensures var m, c := Filed(keys, sheep, world, g), AgentCell(world, g, a);
            Filed(keys, sheep + [a], world, g) == m[c := Lookup(m, c) + [a]]
  {
    var m, c := Filed(keys, sheep, world, g), AgentCell(world, g, a);
    var m' := Filed(keys, sheep + [a], world, g);
    var u := m[c := Lookup(m, c) + [a]];
    assert m'.Keys == u.Keys == m.Keys + {c} by {
      OccupiedSnoc(sheep, a, world, g);
    }
    forall k | k in m'
      ensures m'[k] == u[k]
    {
      CellMembersSnoc(sheep, a, world, g, k);
      if k == c && c !in m {
        UnoccupiedCellEmpty(sheep, world, g, c);
      }
    }
  }

  /** Every bucket lists its sheep in the order they have in `sheep`. */
  lemma {:induction false} CellMembersKeepsOrder(sheep: seq<AgentId>, world: World, g: Positive, c: Cell)
    ensures KeepsOrder(CellMembers(sheep, world, g, c), sheep)
  {
    if sheep != [] {
      var init, a := sheep[..|sheep| - 1], sheep[|sheep| - 1];
      assert sheep == init + [a];
      CellMembersKeepsOrder(init, world, g, c);
      CellMembersMembers(init, world, g, c);
      KeepsOrderExtend(CellMembers(init, world, g, c), init, a);
    }
  }

  /** A list of distinct sheep files each of them at most once. */
  lemma {:induction false} CellMembersNoDups(sheep: seq<AgentId>, world: World, g: Positive, c: Cell)
    requires NoDups(sheep)
    ensures NoDups(CellMembers(sheep, world, g, c))
  {
    if sheep != [] {
      var init, a := sheep[..|sheep| - 1], sheep[|sheep| - 1];
      assert sheep == init + [a];
      NoDupsPrefix(sheep, |init|);
      CellMembersNoDups(init, world, g, c);
      CellMembersMembers(init, world, g, c);
      assert a !in init;
    }
  }

  /**
   * After a rebuild over distinct sheep, every sheep of `allSheep` sits exactly once in
   * the bucket of its own cell and in no other bucket; no other agent is filed at all.
   */
  lemma RebuildFilesEachOnce(keys: set<Cell>, sheep: seq<AgentId>, world: World, g: Positive, a: AgentId)
    requires NoDups(sheep)
    ensures var grid := Filed(keys, sheep, world, g);
            && (a in sheep ==> AgentCell(world, g, a) in grid
                               && multiset(grid[AgentCell(world, g, a)])[a] == 1)
            && (forall c :: c in grid && a in grid[c] ==> a in sheep && c == AgentCell(world, g, a))
  {
    var grid := Filed(keys, sheep, world, g);
    forall c | c in grid
      ensures a in grid[c] <==> a in sheep && c == AgentCell(world, g, a)
    {
      CellMembersMembers(sheep, world, g, c);
    }
    if a in sheep {
      var c := AgentCell(world, g, a);
      assert c in Occupied(sheep, world, g);
      CellMembersNoDups(sheep, world, g, c);
      NoDupsOccursOnce(grid[c], a);
    }
  }

  /** Keys survive a rebuild; a kept key whose cell is now vacant holds an empty list. */
  lemma RebuildKeepsKeys(keys: set<Cell>, sheep: seq<AgentId>, world: World, g: Positive)
    ensures var grid := Filed(keys, sheep, world, g);
            && keys <= grid.Keys
            && (forall c :: c in grid ==> c in keys || exists a :: a in sheep && AgentCell(world, g, a) == c)
            && (forall c :: c in grid && grid[c] == [] ==> c in keys)
  {
    var grid := Filed(keys, sheep, world, g);
    forall c | c in grid && grid[c] == []
      ensures c in keys
    {
      CellMembersMembers(sheep, world, g, c);
    }
  }

  /** Rebuilding again from the same positions leaves the dictionary as it is. */
  lemma RebuildIdempotent(keys: set<Cell>, sheep: seq<AgentId>, world: World, g: Positive)
    ensures var grid := Filed(keys, sheep, world, g);
            Filed(grid.Keys, sheep, world, g) == grid
  {
    var grid := Filed(keys, sheep, world, g);
    var again := Filed(grid.Keys, sheep, world, g);
    assert again.Keys == grid.Keys;
    forall c | c in grid
      ensures again[c] == grid[c]
    {
    }
  }

  /** Total length of the lists a dictionary holds under `cells`. */
  function GridTotal(grid: map<Cell, seq<AgentId>>, cells: seq<Cell>): nat
    requires forall c :: c in cells ==> c in grid
  {
    if cells == [] then 0 else |grid[cells[0]]| + GridTotal(grid, cells[1..])
  }

  /** Total length of the buckets of `cells`, computed from the sheep directly. */
  function BucketTotal(sheep: seq<AgentId>, world: World, g: Positive, cells: seq<Cell>): nat {
    if cells == [] then 0 else |CellMembers(sheep, world, g, cells[0])| + BucketTotal(sheep, world, g, cells[1..])
  }

  lemma {:induction false} GridTotalFiled(keys: set<Cell>, sheep: seq<AgentId>, world: World, g: Positive, cells: seq<Cell>)
    requires forall c :: c in cells ==> c in Filed(keys, sheep, world, g)
    ensures GridTotal(Filed(keys, sheep, world, g), cells) == BucketTotal(sheep, world, g, cells)
  {
    if cells != [] {
      GridTotalFiled(keys, sheep, world, g, cells[1..]);
    }
  }

  /** Filing one more sheep adds one to the total for every listing of its cell. */
  lemma {:induction false} BucketTotalSnoc(sheep: seq<AgentId>, a: AgentId, world: World, g: Positive, cells: seq<Cell>)
    ensures BucketTotal(sheep + [a], world, g, cells)
         == BucketTotal(sheep, world, g, cells) + multiset(cells)[AgentCell(world, g, a)]
  {
    if cells != [] {
      CellMembersSnoc(sheep, a, world, g, cells[0]);
      BucketTotalSnoc(sheep, a, world, g, cells[1..]);
      assert cells == [cells[0]] + cells[1..];
    }
  }

  lemma {:induction false} BucketTotalCount(sheep: seq<AgentId>, world: World, g: Positive, cells: seq<Cell>)
    requires NoDups(cells)
    requires forall a :: a in sheep ==> AgentCell(world, g, a) in cells
    ensures BucketTotal(sheep, world, g, cells) == |sheep|
  {
    if sheep == [] {
      BucketTotalEmpty(world, g, cells);
    } else {
      var init, a := sheep[..|sheep| - 1], sheep[|sheep| - 1];
      assert sheep == init + [a];
      BucketTotalCount(init, world, g, cells);
      BucketTotalSnoc(init, a, world, g, cells);
      NoDupsOccursOnce(cells, AgentCell(world, g, a));
    }
  }

  lemma {:induction false} BucketTotalEmpty(world: World, g: Positive, cells: seq<Cell>)
    ensures BucketTotal([], world, g, cells) == 0
  {
    if cells != [] {
      BucketTotalEmpty(world, g, cells[1..]);
    }
  }

  /**
   * Summed over an enumeration of its keys, the bucket lengths after a rebuild add up to
   * the number of registered sheep.
   */
  lemma RebuildSizesSum(keys: set<Cell>, sheep: seq<AgentId>, world: World, g: Positive, cells: seq<Cell>)
    requires NoDups(cells)
    requires forall c :: c in cells <==> c in Filed(keys, sheep, world, g)
    ensures GridTotal(Filed(keys, sheep, world, g), cells) == |sheep|
  {
    GridTotalFiled(keys, sheep, world, g, cells);
    forall a | a in sheep
      ensures AgentCell(world, g, a) in cells
    {
      assert AgentCell(world, g, a) in Occupied(sheep, world, g);
    }
    BucketTotalCount(sheep, world, g, cells);
  }
}
