/**
 * The neighbour query of the BVH and temporal variants: one
 * `Physics.OverlapSphereNonAlloc` call into a fixed-size collider buffer, then a loop
 * over the filled prefix that skips the sheep itself and accumulates every other hit,
 * with no radius test of its own.
 */
module BroadPhase {
  import opened Geometry
  import opened Agents
  import opened Steering
  import opened GridAgent

  /**
   * What these agents read from their manager: the query radius `neighborDistance`
   * and the layer mask `sheepLayer`.
   */
  datatype FlockSettings = FlockSettings(neighborDistance: real, sheepLayer: int)

  /**
   * The physics engine's broad phase: the sheep whose colliders touch the sphere
   * `(center, radius)` on the given layers, in the engine's order. It may include the
   * querying sheep itself.
   */
  type Overlap = (Vec3, real, int) -> seq<AgentId>

  /** How many hits fit into a buffer of `capacity` slots. */
  function Filled(hits: nat, capacity: nat): (n: nat)
    ensures n <= hits && n <= capacity
    ensures n == hits || n == capacity
  {
    if hits < capacity then hits else capacity
  }

  /**
   * `Physics.OverlapSphereNonAlloc`: writes the first hits into `buffer`, as many as
   * fit, leaves the rest of the buffer as it was, and returns how many it wrote.
   */
  method OverlapSphereNonAlloc(overlap: Overlap, center: Vec3, radius: real, buffer: array<AgentId>, layerMask: int)
    returns (count: nat)
    modifies buffer
    ensures var hits := overlap(center, radius, layerMask);
            && count == Filled(|hits|, buffer.Length)
            && buffer[..count] == hits[..count]
            && buffer[count..] == old(buffer[count..])
  {
    var hits := overlap(center, radius, layerMask);
    count := Filled(|hits|, buffer.Length);
    forall i | 0 <= i < count {
      buffer[i] := hits[i];
    }
  }

  /** The entries of `ids` other than `self`, in order. */
  function Others(ids: seq<AgentId>, self: AgentId): seq<AgentId> {
    if ids == [] then []
    else
      var rest := Others(ids[..|ids| - 1], self);
      var x := ids[|ids| - 1];
      if x != self then rest + [x] else rest
  }

  /** Skipping the sheep itself keeps exactly the other entries, and never adds any. */
  lemma {:induction false} OthersMembers(ids: seq<AgentId>, self: AgentId)
    ensures |Others(ids, self)| <= |ids|
    ensures forall x :: x in Others(ids, self) <==> x in ids && x != self
  {
    if ids != [] {
      var init := ids[..|ids| - 1];
      assert ids == init + [ids[|ids| - 1]];
      OthersMembers(init, self);
    }
  }

  lemma {:induction false} OthersNoDups(ids: seq<AgentId>, self: AgentId)
    requires NoDups(ids)
    ensures NoDups(Others(ids, self))
  {
    if ids != [] {
      var init, x := ids[..|ids| - 1], ids[|ids| - 1];
      assert ids == init + [x];
      NoDupsPrefix(ids, |init|);
      OthersNoDups(init, self);
      OthersMembers(init, self);
      if x != self {
        assert x !in init;
        NoDupsAppend(Others(init, self), [x]);
      }
    }
  }

  lemma OthersSnoc(ids: seq<AgentId>, x: AgentId, self: AgentId)
    ensures Others(ids + [x], self) == Others(ids, self) + (if x != self then [x] else [])
  {
    assert (ids + [x])[..|ids|] == ids;
  }

  /** The neighbours a buffered query accepts: the hits that fit, minus the sheep itself. */
  function BufferedNeighbours(hits: seq<AgentId>, capacity: nat, self: AgentId): seq<AgentId> {
    Others(hits[..Filled(|hits|, capacity)], self)
  }

  /**
   * What `CalculateFlocking` returns once `idle` holds the state after the hysteresis
   * step and the broad phase has reported `hits`.
   */
  function BufferSteer(vm: VectorMath, world: World, self: AgentId, leader: Vec3, idle: bool,
                       hits: seq<AgentId>, capacity: nat, maxForce: real): Vec3
  {
    var pos := world(self).position;
    Combine(vm, pos, idle, FollowVector(vm, pos, leader, idle),
            Gather(vm, world, pos, BufferedNeighbours(hits, capacity, self), maxForce))
  }

  /**
   * The loop over the filled part of the buffer: skips the sheep itself and adds
   * position, heading, the separation push and one to the count for every other hit.
   */
  method AccumulateBuffer(vm: VectorMath, world: World, self: AgentId, neighborBuffer: array<AgentId>, count: nat, maxForce: real)
    returns (acc: Flock)
    requires count <= neighborBuffer.Length
    ensures acc == Gather(vm, world, world(self).position, Others(neighborBuffer[..count], self), maxForce)
    ensures acc.groupSize <= count <= neighborBuffer.Length
  {
    var pos := world(self).position;
    var cohesion, separation, alignment := Zero, Zero, Zero;
    var groupSize: nat := 0;
    var i := 0;
    ghost var seen := [];
    while i < count
      invariant 0 <= i <= count && seen == neighborBuffer[..i]
      invariant Flock(cohesion, separation, alignment, groupSize)
             == Gather(vm, world, pos, Others(seen, self), maxForce)
    {
      var c := neighborBuffer[i];
      assert neighborBuffer[..i + 1] == seen + [c];
      OthersSnoc(seen, c, self);
      if c != self {
        GatherSnoc(vm, world, pos, Others(seen, self), c, maxForce);
        var neighborPos := world(c).position;
        var dist := vm.Distance(neighborPos, pos);
        cohesion := Add(cohesion, neighborPos);
        alignment := Add(alignment, world(c).forward);
        if dist < SeparationRadius {
          var separationStrength := (SeparationRadius - dist) / SeparationRadius;
          var separationDir := vm.normalized(Sub(pos, neighborPos));
          var separationForce := Scale(Scale(separationDir, separationStrength), separationStrength);
          separation := Add(separation, vm.ClampMagnitude(separationForce, maxForce));
        } else {
          AddZero(separation);
        }
        groupSize := groupSize + 1;
      }
      seen := seen + [c];
      i := i + 1;
    }
    OthersMembers(seen, self);
    acc := Flock(cohesion, separation, alignment, groupSize);
  }

  /**
   * However many sheep the broad phase reports, at most `capacity` of them are
   * processed; the sheep itself never is, and every other processed hit counts.
   */
  lemma BufferedNeighboursBound(hits: seq<AgentId>, capacity: nat, self: AgentId)
    ensures var found := BufferedNeighbours(hits, capacity, self);
            && |found| <= capacity
            && self !in found
            && (forall x :: x in found ==> x in hits)
            && (|hits| <= capacity ==> forall x :: x in found <==> x in hits && x != self)
  {
    OthersMembers(hits[..Filled(|hits|, capacity)], self);
    assert |hits| <= capacity ==> hits[..Filled(|hits|, capacity)] == hits;
  }

  /**
   * A crowded query silently loses neighbours: the hits that do not fit into the buffer
   * are never processed, whoever they are.
   */
  lemma BufferDropsOverflow(hits: seq<AgentId>, capacity: nat, self: AgentId)
    requires NoDups(hits) && capacity <= |hits|
    ensures forall x :: x in hits[capacity..] ==> x !in BufferedNeighbours(hits, capacity, self)
  {
    OthersMembers(hits[..capacity], self);
    forall x | x in hits[capacity..]
      ensures x !in hits[..capacity]
    {
      var j :| 0 <= j < |hits[capacity..]| && hits[capacity..][j] == x;
      assert hits[capacity + j] == x;
    }
  }

  /**
   * When the broad phase reports, each once, exactly the sheep within the radius
   * (possibly including the querying sheep) and they fit in the buffer, the buffered
   * query steers like the brute-force pass over `allSheep`.
   */
  lemma BufferedMatchesBruteForce(vm: VectorMath, world: World, self: AgentId, r: real, sheep: seq<AgentId>,
                                  hits: seq<AgentId>, capacity: nat, maxForce: real)
    requires NoDups(hits) && NoDups(sheep) && |hits| <= capacity
    requires forall x :: x != self ==> (x in hits <==> x in sheep && Accepts(vm, world, self, r, x))
    ensures Gather(vm, world, world(self).position, BufferedNeighbours(hits, capacity, self), maxForce)
         == Gather(vm, world, world(self).position, BruteForce(vm, world, self, r, sheep), maxForce)
  {
    var found := BufferedNeighbours(hits, capacity, self);
    var brute := BruteForce(vm, world, self, r, sheep);
    assert hits[..Filled(|hits|, capacity)] == hits;
    OthersMembers(hits, self);
    OthersNoDups(hits, self);
    AcceptedMembers(vm, world, self, r, sheep);
    AcceptedNoDups(vm, world, self, r, sheep);
    NoDupsSameMembers(found, brute);
    GatherPermutation(vm, world, world(self).position, found, brute, maxForce);
  }
}
