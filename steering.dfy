/**
 * The steering rule shared by the three sheep variants (`SheepAgentGrid`,
 * `SheepAgentBVH`, `SheepAgentTemporal`): the idle/active hysteresis, the leader-follow
 * term, the per-neighbour cohesion/separation/alignment sums, their weighted
 * combination, and the velocity update of `FixedUpdate`. The variants differ only in
 * how they enumerate neighbours; each of them feeds its neighbour list to `Gather`.
 */
module Steering {
  import opened Geometry
  import opened Agents

  const CohesionWeight := 1.0
  const SeparationWeight := 2.5
  const AlignmentWeight := 1.0
  const FollowWeight := 3.0

  /** Leader distance below which an active sheep goes idle. */
  const StopDistance := 6.0
  /** Leader distance above which an idle sheep becomes active again. */
  const StartDistance := 10.0
  /** Follow strength of an idle sheep that drifted beyond `StopDistance + 1`. */
  const IdleFollow := 0.2
  /** Weight of cohesion and alignment (and of the target speed) while idle. */
  const IdleInfluence := 0.3
  /** Neighbours closer than this push the sheep away. */
  const SeparationRadius := 2.5
  /** Distance to the group centre at which cohesion reaches full strength. */
  const CohesionRange := 3.0
  /** Rate of the `Lerp` towards standstill when there is nothing to steer for. */
  const DampRate := 8.0
  /** Squared magnitude a move direction must exceed to steer. */
  const SteerThreshold := 0.01

  // ---------------------------------------------------------------------------
  // Idle hysteresis and leader following
  // ---------------------------------------------------------------------------

  /**
   * The new `isIdle` after one call: an idle sheep wakes only beyond `StartDistance`,
   * an active one rests only within `StopDistance`.
   */
  function NextIdle(isIdle: bool, dist: real): (idle: bool)
    ensures isIdle && !idle <==> isIdle && dist > StartDistance
    ensures !isIdle && idle <==> !isIdle && dist < StopDistance
  {
    if isIdle then !(dist > StartDistance) else dist < StopDistance
  }

  /** The leader's position lifted (or lowered) to the sheep's own height. */
  function LeaderOnGround(self: Vec3, leader: Vec3): Vec3 {
    Vec3(leader.x, self.y, leader.z)
  }

  /** `distToLeader` */
  function LeaderDistance(vm: VectorMath, self: Vec3, leader: Vec3): real {
    vm.Distance(self, LeaderOnGround(self, leader))
  }

  /** `Mathf.Clamp01((dist - stopDistance) / (startDistance - stopDistance))` */
  function FollowIntensity(dist: real): (t: real)
    ensures 0.0 <= t <= 1.0
    ensures dist <= StopDistance ==> t == 0.0
    ensures dist >= StartDistance ==> t == 1.0
  {
    Clamp01((dist - StopDistance) / (StartDistance - StopDistance))
  }

  /**
   * The scale applied to the unit direction towards the leader, once `idle` holds the
   * state after the hysteresis step.
   */
  function FollowFactor(idle: bool, dist: real): (f: real)
    ensures 0.0 <= f <= 1.0
    ensures !idle ==> f == FollowIntensity(dist)
    ensures idle ==> (f == IdleFollow <==> dist > StopDistance + 1.0)
    ensures idle ==> (f == 0.0 <==> dist <= StopDistance + 1.0)
  {
    if !idle then FollowIntensity(dist)
    else if dist > StopDistance + 1.0 then IdleFollow
    else 0.0
  }

  /** `follow`: zero unless the sheep is active or an idle sheep has drifted away. */
  function FollowVector(vm: VectorMath, self: Vec3, leader: Vec3, idle: bool): Vec3 {
    var dist := LeaderDistance(vm, self, leader);
    if !idle || dist > StopDistance + 1.0 then
      Scale(vm.normalized(Sub(LeaderOnGround(self, leader), self)), FollowFactor(idle, dist))
    else
      Zero
  }

  /** A sheep never flips twice for the same distance: the state reached is stable. */
  lemma HysteresisSettles(isIdle: bool, dist: real)
    ensures NextIdle(NextIdle(isIdle, dist), dist) == NextIdle(isIdle, dist)
  {
  }

  /** Between the two thresholds the state never changes. */
  lemma HysteresisBand(isIdle: bool, dist: real)
    requires StopDistance <= dist <= StartDistance
    ensures NextIdle(isIdle, dist) == isIdle
  {
  }

  /** The follow intensity grows with the distance to the leader. */
  lemma FollowIntensityMonotone(d1: real, d2: real)
    requires d1 <= d2
    ensures FollowIntensity(d1) <= FollowIntensity(d2)
  {
    var q1 := (d1 - StopDistance) / (StartDistance - StopDistance);
    var q2 := (d2 - StopDistance) / (StartDistance - StopDistance);
    assert q1 <= q2;
  }

  /** The follow term is never longer than its factor, hence never longer than 1. */
  lemma FollowVectorBound(vm: VectorMath, self: Vec3, leader: Vec3, idle: bool)
    requires vm.Valid()
    ensures var f := FollowFactor(idle, LeaderDistance(vm, self, leader));
            SqNorm(FollowVector(vm, self, leader, idle)) <= f * f <= 1.0
    ensures idle && LeaderDistance(vm, self, leader) <= StopDistance + 1.0 ==> FollowVector(vm, self, leader, idle) == Zero
  {
    var dist := LeaderDistance(vm, self, leader);
    var f := FollowFactor(idle, dist);
    SquareMonotone(f, 1.0);
    if !idle || dist > StopDistance + 1.0 {
      ScaleUnitBound(vm.normalized(Sub(LeaderOnGround(self, leader), self)), f);
    }
  }

  /** Scaling a vector of length at most 1 by `f` yields length at most `|f|`. */
  lemma ScaleUnitBound(n: Vec3, f: real)
    requires SqNorm(n) <= 1.0
    ensures SqNorm(Scale(n, f)) <= f * f
  {
    calc {
      SqNorm(Scale(n, f));
      (n.x * f) * (n.x * f) + (n.y * f) * (n.y * f) + (n.z * f) * (n.z * f);
      SqNorm(n) * (f * f);
    <= { MulMono(SqNorm(n), 1.0, f * f); }
      f * f;
    }
  }

  // ---------------------------------------------------------------------------
  // Separation
  // ---------------------------------------------------------------------------

  /** `(2.5 - dist) / 2.5` */
  function SeparationStrength(dist: real): (s: real)
    ensures 0.0 <= dist < SeparationRadius ==> 0.0 < s <= 1.0
  {
    (SeparationRadius - dist) / SeparationRadius
  }

  /** The push away from one neighbour at `other`, clamped to `maxForce`. */
  function SeparationForce(vm: VectorMath, self: Vec3, other: Vec3, maxForce: real): Vec3 {
    var dist := vm.Distance(other, self);
    if dist < SeparationRadius then
      var s := SeparationStrength(dist);
      vm.ClampMagnitude(Scale(Scale(vm.normalized(Sub(self, other)), s), s), maxForce)
    else
      Zero
  }

  /** The squared strength falls off as the neighbour moves away. */
  lemma SeparationFalloff(d1: real, d2: real)
    requires 0.0 <= d1 <= d2 < SeparationRadius
    ensures SeparationStrength(d2) * SeparationStrength(d2) <= SeparationStrength(d1) * SeparationStrength(d1)
  {
    SquareMonotone(SeparationStrength(d2), SeparationStrength(d1));
  }

  /**
   * Each neighbour pushes with at most `maxForce`, and at most with strength s^2 <= 1
   * before clamping; beyond the separation radius it does not push at all.
   */
  lemma SeparationForceBound(vm: VectorMath, self: Vec3, other: Vec3, maxForce: real)
    requires vm.Valid() && maxForce >= 0.0
    ensures SqNorm(SeparationForce(vm, self, other, maxForce)) <= maxForce * maxForce
    ensures vm.Distance(other, self) >= SeparationRadius ==> SeparationForce(vm, self, other, maxForce) == Zero
    ensures SqNorm(SeparationForce(vm, self, other, maxForce)) <= 1.0
  {
    var dist := vm.Distance(other, self);
    if dist < SeparationRadius {
      var s := SeparationStrength(dist);
      var n := vm.normalized(Sub(self, other));
      var raw := Scale(Scale(n, s), s);
      ClampMagnitudeBound(vm, raw, maxForce);
      assert 0.0 < s <= 1.0;
      ScaleUnitBound(n, s);
      SquareMonotone(s, 1.0);
      ScaleUnitBound(Scale(n, s), s);
      if SqNorm(raw) > maxForce * maxForce {
        ScaleUnitBound(vm.normalized(raw), maxForce);
        assert SqNorm(raw) <= 1.0;
      }
    }
  }

  // ---------------------------------------------------------------------------
  // Neighbour sums
  // ---------------------------------------------------------------------------

  /** The running sums `cohesion`, `separation`, `alignment` and the count `groupSize`. */
  datatype Flock = Flock(cohesion: Vec3, separation: Vec3, alignment: Vec3, groupSize: nat)

  const NoNeighbours := Flock(Zero, Zero, Zero, 0)

  /** What one accepted neighbour adds to the sums. */
  function Contribution(vm: VectorMath, self: Vec3, neighbour: Pose, maxForce: real): Flock {
    Flock(neighbour.position, SeparationForce(vm, self, neighbour.position, maxForce), neighbour.forward, 1)
  }

  function Plus(a: Flock, b: Flock): Flock {
    Flock(Add(a.cohesion, b.cohesion), Add(a.separation, b.separation), Add(a.alignment, b.alignment),
          a.groupSize + b.groupSize)
  }

  /** The contribution of each agent, as seen from a sheep at `self`. */
  function Contributions(vm: VectorMath, world: World, self: Vec3, maxForce: real): AgentId -> Flock {
    (id: AgentId) => Contribution(vm, self, world(id), maxForce)
  }

  /** The sum of `f` over `ids`, accumulated from the first to the last. */
  function SumOver(f: AgentId -> Flock, ids: seq<AgentId>): Flock {
    if ids == [] then NoNeighbours
    else Plus(SumOver(f, ids[..|ids| - 1]), f(ids[|ids| - 1]))
  }

  /** The sums over the accepted neighbours `ids`: what the neighbour loop leaves behind. */
  function Gather(vm: VectorMath, world: World, self: Vec3, ids: seq<AgentId>, maxForce: real): (acc: Flock)
    ensures acc.groupSize == |ids|
  {
    var f := Contributions(vm, world, self, maxForce);
    assert forall id :: f(id) == Contribution(vm, self, world(id), maxForce);
    SumOverCount(f, ids);
    SumOver(Contributions(vm, world, self, maxForce), ids)
  }

  /** One more accepted neighbour adds its contribution to the sums. */
  lemma GatherSnoc(vm: VectorMath, world: World, self: Vec3, ids: seq<AgentId>, x: AgentId, maxForce: real)
    ensures Gather(vm, world, self, ids + [x], maxForce)
         == Plus(Gather(vm, world, self, ids, maxForce), Contribution(vm, self, world(x), maxForce))
  {
    assert (ids + [x])[..|ids|] == ids;
  }

  lemma {:induction false} SumOverCount(f: AgentId -> Flock, ids: seq<AgentId>)
    requires forall id :: f(id).groupSize == 1
    ensures SumOver(f, ids).groupSize == |ids|
  {
    if ids != [] {
      SumOverCount(f, ids[..|ids| - 1]);
    }
  }

  lemma PlusNone(a: Flock)
    ensures Plus(a, NoNeighbours) == a
  {
  }

  lemma NonePlus(a: Flock)
    ensures Plus(NoNeighbours, a) == a
  {
  }

  lemma PlusAssociative(a: Flock, b: Flock, c: Flock)
    ensures Plus(Plus(a, b), c) == Plus(a, Plus(b, c))
  {
  }

  /** Summing over a concatenation adds the two partial sums. */
  lemma {:induction false} SumOverAppend(f: AgentId -> Flock, s: seq<AgentId>, t: seq<AgentId>)
    ensures SumOver(f, s + t) == Plus(SumOver(f, s), SumOver(f, t))
  {
    var gs := SumOver(f, s);
    if t == [] {
      assert s + t == s;
      PlusNone(gs);
    } else {
      var init, x := t[..|t| - 1], t[|t| - 1];
      assert (s + t)[..|s + t| - 1] == s + init;
      assert (s + t)[|s + t| - 1] == x;
      SumOverAppend(f, s, init);
      PlusAssociative(gs, SumOver(f, init), f(x));
    }
  }

  /** The sums do not depend on the order in which neighbours are visited. */
  lemma {:induction false} SumOverPermutation(f: AgentId -> Flock, s: seq<AgentId>, t: seq<AgentId>)
    requires multiset(s) == multiset(t)
    ensures SumOver(f, s) == SumOver(f, t)
    decreases |s|
  {
    if s == [] {
      assert |t| == |multiset(t)| == 0;
    } else {
      var k := MatchLast(s, t);
      SumOverPermutation(f, s[..|s| - 1], t[..k] + t[k + 1..]);
      SumOverRemove(f, t, k);
    }
  }

  /** Where the last element of `s` sits in a permutation `t` of it, and what is left. */
  lemma MatchLast(s: seq<AgentId>, t: seq<AgentId>) returns (k: nat)
    requires s != [] && multiset(s) == multiset(t)
    ensures k < |t| && t[k] == s[|s| - 1]
    ensures multiset(s[..|s| - 1]) == multiset(t[..k] + t[k + 1..])
  {
    var init, x := s[..|s| - 1], s[|s| - 1];
    assert s == init + [x];
    assert x in multiset(t);
    k :| 0 <= k < |t| && t[k] == x;
    var rest := t[..k] + t[k + 1..];
    assert t == t[..k] + [x] + t[k + 1..];
    assert multiset(t) == multiset(rest) + multiset{x};
    assert multiset(s) == multiset(init) + multiset{x};
    assert multiset(init) == multiset(s) - multiset{x};
    assert multiset(rest) == multiset(t) - multiset{x};
  }

  /** Taking one agent out of a list takes its contribution out of the sum. */
  lemma SumOverRemove(f: AgentId -> Flock, t: seq<AgentId>, k: nat)
    requires k < |t|
    ensures SumOver(f, t) == Plus(SumOver(f, t[..k] + t[k + 1..]), f(t[k]))
  {
    var before, x, after := t[..k], t[k], t[k + 1..];
    assert t == (before + [x]) + after;
    SumOverAppend(f, before + [x], after);
    assert (before + [x])[..|before|] == before;
    SumOverAppend(f, before, after);
    PlusSwap(SumOver(f, before), f(x), SumOver(f, after));
  }

  lemma PlusSwap(a: Flock, b: Flock, c: Flock)
    ensures Plus(Plus(a, b), c) == Plus(Plus(a, c), b)
  {
  }

  /** Visiting the same neighbours in any order yields the same sums. */
  lemma GatherPermutation(vm: VectorMath, world: World, self: Vec3, s: seq<AgentId>, t: seq<AgentId>, maxForce: real)
    requires multiset(s) == multiset(t)
    ensures Gather(vm, world, self, s, maxForce) == Gather(vm, world, self, t, maxForce)
  {
    SumOverPermutation(Contributions(vm, world, self, maxForce), s, t);
  }

  // ---------------------------------------------------------------------------
  // Combination
  // ---------------------------------------------------------------------------

  /** `flockMult` / `flockingInfluence` */
  function Influence(idle: bool): real {
    if idle then IdleInfluence else 1.0
  }

  /** The four weighted terms that make up the steering vector. */
  datatype Terms = Terms(cohesion: Vec3, separation: Vec3, alignment: Vec3, follow: Vec3)

  /** The group centre `cohesion / groupSize`, at the sheep's own height. */
  function GroupCentre(self: Vec3, acc: Flock): Vec3
    requires acc.groupSize > 0
  {
    var avg := Scale(acc.cohesion, 1.0 / acc.groupSize as real);
    Vec3(avg.x, self.y, avg.z)
  }

  /** `Mathf.Clamp01(distanceToGroupCenter / 3.0f)` */
  function CohesionDamping(vm: VectorMath, self: Vec3, acc: Flock): (d: real)
    requires acc.groupSize > 0
    ensures 0.0 <= d <= 1.0
  {
    Clamp01(vm.Distance(self, GroupCentre(self, acc)) / CohesionRange)
  }

  function WeightedTerms(vm: VectorMath, self: Vec3, idle: bool, follow: Vec3, acc: Flock): Terms {
    if acc.groupSize > 0 then
      var m := Influence(idle);
      var cohesionDir := vm.normalized(Sub(GroupCentre(self, acc), self));
      var alignmentDir := vm.normalized(Scale(acc.alignment, 1.0 / acc.groupSize as real));
      Terms(Scale(Scale(Scale(cohesionDir, CohesionWeight), m), CohesionDamping(vm, self, acc)),
            Scale(acc.separation, SeparationWeight),
            Scale(Scale(alignmentDir, AlignmentWeight), m),
            Scale(follow, FollowWeight))
    else
      Terms(Zero, Zero, Zero, Scale(follow, FollowWeight))
  }

  /** The return value of `CalculateFlocking`: the sum of the weighted terms. */
  function Combine(vm: VectorMath, self: Vec3, idle: bool, follow: Vec3, acc: Flock): Vec3 {
    var t := WeightedTerms(vm, self, idle, follow, acc);
    Add(Add(Add(t.cohesion, t.separation), t.alignment), t.follow)
  }

  /** Without neighbours the steering is the follow term alone, at `followWeight`. */
  lemma CombineLonely(vm: VectorMath, self: Vec3, idle: bool, follow: Vec3, acc: Flock)
    requires acc.groupSize == 0
    ensures Combine(vm, self, idle, follow, acc) == Scale(follow, FollowWeight)
  {
  }

  /**
   * Going idle scales cohesion and alignment by 0.3 and leaves separation and follow at
   * full weight.
   */
  lemma IdleScalesFlocking(vm: VectorMath, self: Vec3, follow: Vec3, acc: Flock)
    requires acc.groupSize > 0
    ensures var idle, active := WeightedTerms(vm, self, true, follow, acc), WeightedTerms(vm, self, false, follow, acc);
            && idle.cohesion == Scale(active.cohesion, IdleInfluence)
            && idle.alignment == Scale(active.alignment, IdleInfluence)
            && idle.separation == active.separation
            && idle.follow == active.follow
  {
    var d := CohesionDamping(vm, self, acc);
    var c := vm.normalized(Sub(GroupCentre(self, acc), self));
    ScaleSwap(c, d);
  }

  lemma ScaleSwap(c: Vec3, d: real)
    ensures Scale(Scale(Scale(c, CohesionWeight), IdleInfluence), d)
         == Scale(Scale(Scale(Scale(c, CohesionWeight), 1.0), d), IdleInfluence)
  {
    assert c.x * 1.0 * 0.3 * d == c.x * 1.0 * 1.0 * d * 0.3;
    assert c.y * 1.0 * 0.3 * d == c.y * 1.0 * 1.0 * d * 0.3;
    assert c.z * 1.0 * 0.3 * d == c.z * 1.0 * 1.0 * d * 0.3;
  }

  /** Cohesion is fully damped when the sheep stands at the group centre. */
  lemma CohesionDampingAtCentre(vm: VectorMath, self: Vec3, acc: Flock)
    requires vm.Valid() && acc.groupSize > 0 && GroupCentre(self, acc) == self
    ensures CohesionDamping(vm, self, acc) == 0.0
  {
    DistanceToItself(vm, self);
    DampingAtZeroDistance(vm, self, acc);
  }

  /** A point is at distance zero from itself. */
  lemma DistanceToItself(vm: VectorMath, p: Vec3)
    requires vm.Valid()
    ensures vm.Distance(p, p) == 0.0
  {
    assert Sub(p, p) == Zero;
    LengthOfZero(vm);
  }

  /** No damping distance means no cohesion. */
  lemma DampingAtZeroDistance(vm: VectorMath, self: Vec3, acc: Flock)
    requires acc.groupSize > 0 && vm.Distance(self, GroupCentre(self, acc)) == 0.0
    ensures CohesionDamping(vm, self, acc) == 0.0
  {
  }

  /** The zero vector has length zero. */
  lemma LengthOfZero(vm: VectorMath)
    requires vm.Valid()
    ensures vm.length(Zero) == 0.0
  {
    assert SqNorm(Zero) <= 0.0 * 0.0;
    LengthVersusSquare(vm, Zero, 0.0);
  }

  // ---------------------------------------------------------------------------
  // FixedUpdate
  // ---------------------------------------------------------------------------

  /** The rigidbody state `FixedUpdate` writes: its velocity and its heading. */
  datatype Motion = Motion(velocity: Vec3, heading: Vec3)

  /**
   * What `FixedUpdate` reads besides the steering vector: the sheep's `speed`, its
   * `deadZoneRadius`, and the per-tick factors `movementSmoothness * fixedDeltaTime`,
   * `rotationSpeed * fixedDeltaTime` and `8 * fixedDeltaTime`.
   */
  datatype Drive = Drive(speed: real, deadZoneRadius: real, smoothing: real, turning: real, damping: real)

  /** `isIdle ? 0.3f : 1.0f` applied to the target velocity. */
  function SpeedFactor(idle: bool): real {
    if idle then IdleInfluence else 1.0
  }

  /** The three branches of `FixedUpdate` after the steering vector `steer` is known. */
  function Move(vm: VectorMath, steer: Vec3, m: Motion, idle: bool, d: Drive): Motion {
    var dir := Horizontal(steer);
    var v := m.velocity;
    if vm.length(dir) < d.deadZoneRadius && idle then
      Motion(Vec3(0.0, v.y, 0.0), m.heading)
    else
      var dir := vm.ClampUnit(dir);
      if SqNorm(dir) > SteerThreshold then
        var target := Scale(Scale(dir, d.speed), SpeedFactor(idle));
        var smooth := Lerp(Horizontal(v), Horizontal(target), d.smoothing);
        Motion(Vec3(smooth.x, v.y, smooth.z), vm.Turn(m.heading, dir, d.turning))
      else
        var damped := Lerp(Horizontal(v), Zero, d.damping);
        Motion(Vec3(damped.x, v.y, damped.z), m.heading)
  }

  /**
   * The body of `FixedUpdate` after `CalculateFlocking`: flatten the steering vector,
   * stop in the idle dead zone, clamp to unit length, then either turn and ease the
   * horizontal velocity towards `speed` (scaled by 0.3 when idle) or damp it.
   */
  method StepMotion(vm: VectorMath, steer: Vec3, m: Motion, isIdle: bool, d: Drive) returns (next: Motion)
    ensures next == Move(vm, steer, m, isIdle, d)
  {
    var velocity, heading := m.velocity, m.heading;
    var moveDirection := Horizontal(steer);

    if vm.length(moveDirection) < d.deadZoneRadius && isIdle {
      return Motion(Vec3(0.0, velocity.y, 0.0), heading);
    }

    if vm.length(moveDirection) > 1.0 {
      moveDirection := vm.normalized(moveDirection);
    }

    if SqNorm(moveDirection) > SteerThreshold {
      var targetRotation := vm.Turn(heading, moveDirection, d.turning);
      var currentSpeedMultiplier := if isIdle then IdleInfluence else 1.0;
      var targetVelocity := Scale(Scale(moveDirection, d.speed), currentSpeedMultiplier);
      var smoothVel := Lerp(Horizontal(velocity), Horizontal(targetVelocity), d.smoothing);
      next := Motion(Vec3(smoothVel.x, velocity.y, smoothVel.z), targetRotation);
    } else {
      var dampedVel := Lerp(Horizontal(velocity), Zero, d.damping);
      next := Motion(Vec3(dampedVel.x, velocity.y, dampedVel.z), heading);
    }
  }

  /** Which of the three branches `Move` takes. */
  datatype Branch = DeadZone | Steer | Damp

  function MoveBranch(vm: VectorMath, steer: Vec3, idle: bool, d: Drive): Branch {
    var dir := Horizontal(steer);
    if vm.length(dir) < d.deadZoneRadius && idle then DeadZone
    else if SqNorm(vm.ClampUnit(dir)) > SteerThreshold then Steer
    else Damp
  }

  /**
   * In every branch vertical velocity is untouched; the dead zone stops the sheep
   * horizontally, only steering turns it, and damping never speeds it up.
   */
  lemma MoveBranches(vm: VectorMath, steer: Vec3, m: Motion, idle: bool, d: Drive)
    requires vm.Valid()
    ensures var r := Move(vm, steer, m, idle, d);
            && r.velocity.y == m.velocity.y
            && (MoveBranch(vm, steer, idle, d) == DeadZone ==> idle && Horizontal(r.velocity) == Zero && r.heading == m.heading)
            && (MoveBranch(vm, steer, idle, d) == Damp ==>
                  r.heading == m.heading && SqNorm(Horizontal(r.velocity)) <= SqNorm(Horizontal(m.velocity)))
            && (MoveBranch(vm, steer, idle, d) != Steer ==> r.heading == m.heading)
  {
    var h := Horizontal(m.velocity);
    if MoveBranch(vm, steer, idle, d) == Damp {
      var t := Clamp01(d.damping);
      var damped := Lerp(h, Zero, d.damping);
      LerpToZero(h, t);
      assert Horizontal(Move(vm, steer, m, idle, d).velocity) == Horizontal(damped);
    }
  }

  /** `Lerp(h, 0, t)` is `h` shrunk by `1 - t`, so it is never longer than `h`. */
  lemma LerpToZero(h: Vec3, t: real)
    requires 0.0 <= t <= 1.0 && h.y == 0.0
    ensures SqNorm(Horizontal(Lerp(h, Zero, t))) <= SqNorm(h)
  {
    var k := 1.0 - t;
    var l := Lerp(h, Zero, t);
    assert l.x == h.x * k && l.z == h.z * k;
    SquareMonotone(k, 1.0);
    calc {
      SqNorm(Horizontal(l));
      (h.x * k) * (h.x * k) + (h.z * k) * (h.z * k);
      (h.x * h.x + h.z * h.z) * (k * k);
    <= { MulMono(k * k, 1.0, h.x * h.x + h.z * h.z); }
      SqNorm(h);
    }
  }

  /**
   * When steering, the horizontal velocity moves towards a target no faster than
   * `speed * factor` (0.3 when idle) and never exceeds the larger of the current and
   * the target speed.
   */
  lemma SteerSpeedBound(vm: VectorMath, steer: Vec3, m: Motion, idle: bool, d: Drive)
    requires vm.Valid() && d.speed >= 0.0
    requires MoveBranch(vm, steer, idle, d) == Steer
    ensures var top := d.speed * SpeedFactor(idle);
            var now := SqNorm(Horizontal(m.velocity));
            var next := SqNorm(Horizontal(Move(vm, steer, m, idle, d).velocity));
            next <= now || next <= top * top
  {
    var dir := vm.ClampUnit(Horizontal(steer));
    ClampUnitBound(vm, Horizontal(steer));
    var f := SpeedFactor(idle);
    var target := Scale(Scale(dir, d.speed), f);
    TargetBound(dir, d.speed, f);
    var smooth := Lerp(Horizontal(m.velocity), Horizontal(target), d.smoothing);
    assert Horizontal(Move(vm, steer, m, idle, d).velocity) == Horizontal(smooth);
    HorizontalShorter(target);
    LerpConvex(Horizontal(m.velocity), Horizontal(target), d.smoothing);
  }

  /** `moveDirection * speed * factor` for a direction no longer than 1. */
  lemma TargetBound(dir: Vec3, speed: real, f: real)
    requires SqNorm(dir) <= 1.0
    ensures SqNorm(Scale(Scale(dir, speed), f)) <= (speed * f) * (speed * f)
  {
    ScaleUnitBound(dir, speed);
    ScaleBound(Scale(dir, speed), speed * speed, f);
    assert (speed * speed) * (f * f) == (speed * f) * (speed * f);
  }

  lemma HorizontalShorter(v: Vec3)
    ensures SqNorm(Horizontal(v)) <= SqNorm(v)
  {
  }

  lemma ScaleBound(v: Vec3, b: real, f: real)
    requires SqNorm(v) <= b
    ensures SqNorm(Scale(v, f)) <= b * (f * f)
  {
    calc {
      SqNorm(Scale(v, f));
      (v.x * f) * (v.x * f) + (v.y * f) * (v.y * f) + (v.z * f) * (v.z * f);
      SqNorm(v) * (f * f);
    <= { MulMono(SqNorm(v), b, f * f); }
      b * (f * f);
    }
  }

  /** A point on the segment from `a` to `b` is no farther from the origin than both ends. */
  lemma LerpConvex(a: Vec3, b: Vec3, t: real)
    requires a.y == 0.0 && b.y == 0.0
    ensures var l := SqNorm(Horizontal(Lerp(a, b, t)));
            l <= SqNorm(a) || l <= SqNorm(b)
  {
    var l := Lerp(a, b, t);
    PlanarMix(a.x, a.z, b.x, b.z, Clamp01(t), l.x, l.z);
  }

  /** The planar core of `LerpConvex`, on coordinates. */
  lemma PlanarMix(ax: real, az: real, bx: real, bz: real, c: real, lx: real, lz: real)
    requires 0.0 <= c <= 1.0
    requires lx == ax + (bx - ax) * c && lz == az + (bz - az) * c
    ensures lx * lx + lz * lz <= ax * ax + az * az || lx * lx + lz * lz <= bx * bx + bz * bz
  {
    SquareConvex(ax, bx, c, lx);
    SquareConvex(az, bz, c, lz);
    MixSum(ax * ax, bx * bx, az * az, bz * bz, c, lx * lx, lz * lz);
  }

  /** Two mixes with the same weight add up to a mix bounded by the larger end. */
  lemma MixSum(p1: real, q1: real, p2: real, q2: real, c: real, s1: real, s2: real)
    requires 0.0 <= c <= 1.0
    requires s1 <= (1.0 - c) * p1 + c * q1 && s2 <= (1.0 - c) * p2 + c * q2
    ensures s1 + s2 <= p1 + p2 || s1 + s2 <= q1 + q2
  {
    var m := (1.0 - c) * p1 + c * q1 + ((1.0 - c) * p2 + c * q2);
    if p1 + p2 <= q1 + q2 {
      assert m - (q1 + q2) == (p1 + p2 - q1 - q2) * (1.0 - c);
      NonPositiveProduct(p1 + p2 - q1 - q2, 1.0 - c);
    } else {
      assert m - (p1 + p2) == (q1 + q2 - p1 - p2) * c;
      NonPositiveProduct(q1 + q2 - p1 - p2, c);
    }
  }

  /** Squaring is convex: the square of a mix is at most the mix of the squares. */
  lemma SquareConvex(x: real, y: real, t: real, m: real)
    requires 0.0 <= t <= 1.0 && m == x + (y - x) * t
    ensures m * m <= (1.0 - t) * (x * x) + t * (y * y)
  {
    var e := y - x;
    assert (x + e * t) * (x + e * t) == x * x + 2.0 * x * e * t + e * e * (t * t);
    assert (1.0 - t) * (x * x) + t * (y * y) == x * x + 2.0 * x * e * t + e * e * t;
    MulMono(t, 1.0, t);
    assert t * t <= t;
    MulMono(t * t, t, e * e);
  }
}
