/**
 * `SheepAgentBVH`: the same steering as the grid variant, but neighbours come from one
 * physics broad-phase query (`OverlapSphereNonAlloc`) into a 20-slot collider buffer.
 */
module BvhAgent {
  import opened Wrappers
  import opened Geometry
  import opened Agents
  import opened Steering
  import opened BroadPhase

  /** `new Collider[20]` */
  const BvhCapacity := 20

  class SheepAgentBVH {
    const id: AgentId
    /** `manager`; only its `neighborDistance` and `sheepLayer` are read. */
    var manager: Option<FlockSettings>
    var isIdle: bool
    var velocity: Vec3
    var heading: Vec3
    /** The shared, reused collider buffer. */
    const neighborBuffer: array<AgentId>
    const speed: real
    const movementSmoothness: real
    const rotationSpeed: real
    const maxSeparationForce: real
    const deadZoneRadius: real

    ghost predicate Valid()
      reads this
    {
      neighborBuffer.Length == BvhCapacity
    }

    constructor (id: AgentId, speed: real, movementSmoothness: real, rotationSpeed: real,
                 maxSeparationForce: real, deadZoneRadius: real, velocity: Vec3, heading: Vec3)
      ensures Valid() && fresh(neighborBuffer)
      ensures this.id == id && manager == None && !isIdle
      ensures this.speed == speed && this.movementSmoothness == movementSmoothness
      ensures this.rotationSpeed == rotationSpeed && this.maxSeparationForce == maxSeparationForce
      ensures this.deadZoneRadius == deadZoneRadius
      ensures this.velocity == velocity && this.heading == heading
    {
      this.id := id;
      this.speed := speed;
      this.movementSmoothness := movementSmoothness;
      this.rotationSpeed := rotationSpeed;
      this.maxSeparationForce := maxSeparationForce;
      this.deadZoneRadius := deadZoneRadius;
      this.velocity := velocity;
      this.heading := heading;
      manager := None;
      isIdle := false;
      neighborBuffer := new AgentId[BvhCapacity];
    }

    /** The tunables `FixedUpdate` reads, for a tick of length `dt`. */
    function DriveFor(dt: real): Drive {
      Drive(speed, deadZoneRadius, movementSmoothness * dt, rotationSpeed * dt, DampRate * dt)
    }

    /**
     * Steps the hysteresis on `isIdle`, builds the follow term, fills the buffer from the
     * broad phase around its own position and accumulates every buffered hit but itself.
     * The buffer keeps the hits that fit and its stale tail.
     */
    method CalculateFlocking(vm: VectorMath, world: World, leader: Vec3, overlap: Overlap) returns (steer: Vec3)
      requires Valid() && manager.Some?
      modifies this`isIdle, neighborBuffer
      ensures isIdle == NextIdle(old(isIdle), LeaderDistance(vm, world(id).position, leader))
      ensures var hits := overlap(world(id).position, manager.value.neighborDistance, manager.value.sheepLayer);
              var count := Filled(|hits|, BvhCapacity);
              && steer == BufferSteer(vm, world, id, leader, isIdle, hits, BvhCapacity, maxSeparationForce)
              && neighborBuffer[..count] == hits[..count]
              && neighborBuffer[count..] == old(neighborBuffer[count..])
    {
      var pos := world(id).position;
      var leaderGroundPos := LeaderOnGround(pos, leader);
      var distToLeader := vm.Distance(pos, leaderGroundPos);
      var follow := Zero;

      if isIdle {
        if distToLeader > StartDistance { isIdle := false; }
      } else {
        if distToLeader < StopDistance { isIdle := true; }
      }

      if !isIdle {
        var t := Clamp01((distToLeader - StopDistance) / (StartDistance - StopDistance));
        follow := Scale(vm.normalized(Sub(leaderGroundPos, pos)), t);
      } else if distToLeader > StopDistance + 1.0 {
        follow := Scale(vm.normalized(Sub(leaderGroundPos, pos)), IdleFollow);
      }

      var settings := manager.value;
      var count := OverlapSphereNonAlloc(overlap, pos, settings.neighborDistance, neighborBuffer, settings.sheepLayer);
      var acc := AccumulateBuffer(vm, world, id, neighborBuffer, count, maxSeparationForce);
      steer := Combine(vm, pos, isIdle, follow, acc);
    }

    /**
     * Without a manager nothing happens. Otherwise the steering vector, flattened to the
     * ground, drives one of the three branches of `Move`.
     */
    method FixedUpdate(vm: VectorMath, world: World, leader: Vec3, overlap: Overlap, dt: real)
      requires Valid()
      modifies this`isIdle, this`velocity, this`heading, neighborBuffer
      ensures old(manager) == None ==>
        isIdle == old(isIdle) && velocity == old(velocity) && heading == old(heading)
        && neighborBuffer[..] == old(neighborBuffer[..])
      ensures manager.Some? ==>
        var hits := overlap(world(id).position, manager.value.neighborDistance, manager.value.sheepLayer);
        && isIdle == NextIdle(old(isIdle), LeaderDistance(vm, world(id).position, leader))
        && Motion(velocity, heading)
           == Move(vm, BufferSteer(vm, world, id, leader, isIdle, hits, BvhCapacity, maxSeparationForce),
                   Motion(old(velocity), old(heading)), isIdle, DriveFor(dt))
    {
      if manager == None {
        return;
      }
      var moveDirection := CalculateFlocking(vm, world, leader, overlap);
      var next := StepMotion(vm, moveDirection, Motion(velocity, heading), isIdle, DriveFor(dt));
      velocity, heading := next.velocity, next.heading;
    }
  }
}
