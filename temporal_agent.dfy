/**
 * `SheepAgentTemporal`: the BVH variant with a 30-slot buffer that also records how long
 * its flocking calculation took, in milliseconds, for the metrics collector.
 */
module TemporalAgent {
  import opened Wrappers
  import opened Geometry
  import opened Agents
  import opened Steering
  import opened BroadPhase

  /** `new Collider[30]` */
  const TemporalCapacity := 30

  /** `(Time.realtimeSinceStartup - startTime) * 1000f`: seconds on the wall clock to milliseconds. */
  function ElapsedMillis(clockBefore: real, clockAfter: real): (ms: real)
    ensures clockBefore <= clockAfter ==> ms >= 0.0
    ensures ms * 0.001 == clockAfter - clockBefore
  {
    (clockAfter - clockBefore) * 1000.0
  }

  class SheepAgentTemporal {
    const id: AgentId
    /** `manager`; only its `neighborDistance` and `sheepLayer` are read. */
    var manager: Option<FlockSettings>
    var isIdle: bool
    var velocity: Vec3
    var heading: Vec3
    /** Milliseconds the last `CalculateFlocking` took; read by the metrics collector. */
    var lastCalcTime: real
    /** The shared, reused collider buffer. */
    const neighborBuffer: array<AgentId>
    const speed: real
    const movementSmoothness: real
    const rotationSpeed: real
    const maxSeparationForce: real
    const deadZoneRadius: real

    ghost predicate Valid()
      reads this
    {
      neighborBuffer.Length == TemporalCapacity
    }

    constructor (id: AgentId, speed: real, movementSmoothness: real, rotationSpeed: real,
                 maxSeparationForce: real, deadZoneRadius: real, velocity: Vec3, heading: Vec3)
      ensures Valid() && fresh(neighborBuffer)
      ensures this.id == id && manager == None && !isIdle
      ensures this.speed == speed && this.movementSmoothness == movementSmoothness
      ensures this.rotationSpeed == rotationSpeed && this.maxSeparationForce == maxSeparationForce
      ensures this.deadZoneRadius == deadZoneRadius
      ensures this.velocity == velocity && this.heading == heading && lastCalcTime == 0.0
    {
      this.id := id;
      this.speed := speed;
      this.movementSmoothness := movementSmoothness;
      this.rotationSpeed := rotationSpeed;
      this.maxSeparationForce := maxSeparationForce;
      this.deadZoneRadius := deadZoneRadius;
      this.velocity := velocity;
      this.heading := heading;
      manager := None;
      isIdle := false;
      lastCalcTime := 0.0;
      neighborBuffer := new AgentId[TemporalCapacity];
    }

    /** The tunables `FixedUpdate` reads, for a tick of length `dt`. */
    function DriveFor(dt: real): Drive {
      Drive(speed, deadZoneRadius, movementSmoothness * dt, rotationSpeed * dt, DampRate * dt)
    }

    /**
     * Steps the hysteresis on `isIdle`, builds the follow term, fills the buffer from the
     * broad phase around its own position and accumulates every buffered hit but itself.
     * The buffer keeps the hits that fit and its stale tail.
     */
    method CalculateFlocking(vm: VectorMath, world: World, leader: Vec3, overlap: Overlap) returns (steer: Vec3)
      requires Valid() && manager.Some?
      modifies this`isIdle, neighborBuffer
      ensures isIdle == NextIdle(old(isIdle), LeaderDistance(vm, world(id).position, leader))
      ensures var hits := overlap(world(id).position, manager.value.neighborDistance, manager.value.sheepLayer);
              var count := Filled(|hits|, TemporalCapacity);
              && steer == BufferSteer(vm, world, id, leader, isIdle, hits, TemporalCapacity, maxSeparationForce)
              && neighborBuffer[..count] == hits[..count]
              && neighborBuffer[count..] == old(neighborBuffer[count..])
    {
      var pos := world(id).position;
      var leaderGroundPos := LeaderOnGround(pos, leader);
      var distToLeader := vm.Distance(pos, leaderGroundPos);
      var follow := Zero;

      if isIdle {
        if distToLeader > StartDistance { isIdle := false; }
      } else {
        if distToLeader < StopDistance { isIdle := true; }
      }

      if !isIdle {
        var t := Clamp01((distToLeader - StopDistance) / (StartDistance - StopDistance));
        follow := Scale(vm.normalized(Sub(leaderGroundPos, pos)), t);
      } else if distToLeader > StopDistance + 1.0 {
        follow := Scale(vm.normalized(Sub(leaderGroundPos, pos)), IdleFollow);
      }

      var settings := manager.value;
      var count := OverlapSphereNonAlloc(overlap, pos, settings.neighborDistance, neighborBuffer, settings.sheepLayer);
      var acc := AccumulateBuffer(vm, world, id, neighborBuffer, count, maxSeparationForce);
      steer := Combine(vm, pos, isIdle, follow, acc);
    }

    /**
     * Without a manager nothing happens. Otherwise the flocking calculation is timed
     * between the wall-clock readings `clockBefore` and `clockAfter`, and the steering
     * vector, flattened to the ground, drives one of the three branches of `Move`.
     */
    method FixedUpdate(vm: VectorMath, world: World, leader: Vec3, overlap: Overlap, dt: real,
                       clockBefore: real, clockAfter: real)
      requires Valid()
      modifies this`isIdle, this`velocity, this`heading, this`lastCalcTime, neighborBuffer
      ensures old(manager) == None ==>
        isIdle == old(isIdle) && velocity == old(velocity) && heading == old(heading)
        && lastCalcTime == old(lastCalcTime) && neighborBuffer[..] == old(neighborBuffer[..])
      ensures manager.Some? ==>
        var hits := overlap(world(id).position, manager.value.neighborDistance, manager.value.sheepLayer);
        && lastCalcTime == ElapsedMillis(clockBefore, clockAfter)
        && isIdle == NextIdle(old(isIdle), LeaderDistance(vm, world(id).position, leader))
        && Motion(velocity, heading)
           == Move(vm, BufferSteer(vm, world, id, leader, isIdle, hits, TemporalCapacity, maxSeparationForce),
                   Motion(old(velocity), old(heading)), isIdle, DriveFor(dt))
    {
      if manager == None {
        return;
      }
      var moveDirection := CalculateFlocking(vm, world, leader, overlap);
      lastCalcTime := ElapsedMillis(clockBefore, clockAfter);
      var next := StepMotion(vm, moveDirection, Motion(velocity, heading), isIdle, DriveFor(dt));
      velocity, heading := next.velocity, next.heading;
    }
  }
}
