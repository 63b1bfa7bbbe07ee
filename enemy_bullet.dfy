/** EnemyBullet: one pooled projectile. After Setup it runs through the
    phases Preparing (startup animation) -> Active (movement, lifespan,
    sub-bullets, bounds) -> Closing (the startup animation played backwards)
    and is then returned to the pool. */
module Bullet {
  import opened Common
  import opened BulletConfig
  import Pool

  /** The serialized screen bounds of the bullet (defaults -10, 10, -6, 6). */
  datatype Bounds = Bounds(minX: real, maxX: real, minY: real, maxY: real)

  /** What an Update or Deactivate hands to the rest of the game. */
  datatype BulletEvent =
      /** SpawnSubBullet: the spawner's ExecuteShot with step 0, skill index 0,
          the bullet's own position and team. */
    | SubShot(shot: ShotData, origin: Vec, team: TeamSide)
      /** SpawnDeathEffect: an effect at the bullet's position, 2.5 times its
          data's scale, in the bullet's draw order. */
    | DeathEffect(pos: Vec, scale: Vec3, order: int)
      /** BulletPool.ReturnToPool(gameObject). */
    | ReturnedToPool

  /** The motion parameters set by Setup and integrated by Update. */
  datatype Motion = Motion(
    pos: Vec,
    velocity: Vec,
    speed: real,        // currentSpeed
    speedAcc: real,
    maxSpeed: real,
    angle: real,        // currentAngle
    angleAcc: real,
    maxAngle: real,
    hasAngleLimit: bool)

  /** The startup and closing animation counters. */
  datatype Phase = Phase(isPreparing: bool, prepFrameCount: int, isClosing: bool, closeFrameCount: int)

  /** Collider and appearance: the two colliders' enabled flags, the circle's
      radius, transform.localScale and the value the startup effect last applied. */
  datatype Look = Look(circleEnabled: bool, capsuleEnabled: bool, circleRadius: real, scale: Vec3, effectValue: real)

  /** The fields of an EnemyBullet that its logic reads or writes. */
  datatype BulletState = BulletState(
    motion: Motion,
    phase: Phase,
    look: Look,
    data: Option<BulletData>,    // originData
    team: TeamSide,
    hasSpawner: bool,            // mySpawner != null
    order: int,                  // currentSortingOrder
    lifeTimer: real,
    subSpawnTimer: real,
    subSpawnFrameCounter: int,
    nextStepIndex: int,
    framesSinceSpawn: int)

  function Duration(st: BulletState): int
  {
    if st.data.Some? then st.data.value.startupEffect.durationFrames else 0
  }

  /** A preparing bullet has startup frames left; a closing one has data. */
  predicate Wf(st: BulletState)
  {
    (st.phase.isPreparing ==> st.data.Some? && 0 <= st.phase.prepFrameCount < Duration(st)) &&
    (st.phase.isClosing ==> st.data.Some? && st.phase.closeFrameCount >= 0)
  }

  function ScaleBy(v: Vec3, k: real): Vec3
  {
    Vec3(v.x * k, v.y * k, v.z * k)
  }

  /** UpdateVelocityAndRotation: the direction of currentAngle times currentSpeed. */
  function VelocityOf(trig: Trig, angle: real, speed: real): Vec
  {
    Vec(trig.cosDeg(angle) * speed, trig.sinDeg(angle) * speed)
  }

  /** ApplyStartupEffect(t) on the look: the value Lerp(startValue, endValue, t);
      the Scale kind also scales the data's localScale by it. Rotations are
      presentation and are not tracked; the MoveX kind moves the bullet
      (StartupMotion). */
  function StartupLook(data: BulletData, look: Look, t: real): (r: Look)
    ensures r == look.(effectValue := r.effectValue, scale := r.scale)
    ensures t <= 0.0 ==> r.effectValue == data.startupEffect.startValue
    ensures t >= 1.0 ==> r.effectValue == data.startupEffect.endValue
    ensures data.startupEffect.kind == ScaleUp ==> r.scale == ScaleBy(data.localScale, r.effectValue)
    ensures data.startupEffect.kind != ScaleUp ==> r.scale == look.scale
  {
    var e := data.startupEffect;
    var value := Lerp(e.startValue, e.endValue, t);
    look.(effectValue := value, scale := if e.kind == ScaleUp then ScaleBy(data.localScale, value) else look.scale)
  }

  /** ApplyStartupEffect on the motion: the MoveX kind moves the bullet along
      its facing direction `right` (transform.right) by value * dt; no other
      kind moves it. */
  function StartupMotion(data: BulletData, m: Motion, right: Vec, dt: real, value: real): Motion
  {
    if data.startupEffect.kind == MoveX then m.(pos := m.pos.Plus(Nudge(right, value, dt))) else m
  }

  /** One MoveX step: transform.right * (value * Time.deltaTime). */
  function Nudge(right: Vec, value: real, dt: real): Vec
  {
    right.Scale(value * dt)
  }

  /** The colliders Setup configures for each shape; a Cross shape touches neither. */
  function SetupColliders(data: BulletData, look: Look): (r: Look)
    ensures data.colliderShape == Circle ==> r.circleEnabled && !r.capsuleEnabled && r.circleRadius == data.colliderRadius
    ensures data.colliderShape == Capsule ==> !r.circleEnabled && r.capsuleEnabled && r.circleRadius == look.circleRadius
    ensures data.colliderShape == Cross ==> r == look
    ensures r.scale == look.scale && r.effectValue == look.effectValue
  {
    match data.colliderShape
    case Circle => look.(circleEnabled := true, circleRadius := data.colliderRadius, capsuleEnabled := false)
    case Capsule => look.(capsuleEnabled := true, circleEnabled := false)
    case Cross => look
  }

  /** Setup: take the data, zero the per-flight counters, start the startup
      animation when the data has one, and set the motion parameters. The
      sub-spawn timer and the closing counters keep their old values. A MoveX
      step applied at progress 0 is overwritten by the position assignment
      that follows it. */
  function SetupSpec(st: BulletState, data: BulletData, pos: Vec, initSpeed: real, spAcc: real, spMax: real,
                     initAngle: real, anAcc: real, anMax: real, order: int, team: TeamSide, hasSpawner: bool,
                     trig: Trig): (r: BulletState)
    ensures r.data == Some(data) && r.team == team && r.order == order && r.hasSpawner == hasSpawner
    ensures r.nextStepIndex == 0 && r.framesSinceSpawn == 0 && r.lifeTimer == 0.0 && r.subSpawnFrameCounter == 0
    ensures r.phase.isPreparing <==> data.startupEffect.durationFrames > 0
    ensures r.phase.isPreparing ==> r.phase.prepFrameCount == 0 && r.look.effectValue == data.startupEffect.startValue
    ensures r.subSpawnTimer == st.subSpawnTimer
    ensures r.phase.isClosing == st.phase.isClosing && r.phase.closeFrameCount == st.phase.closeFrameCount
    ensures r.motion == Motion(pos, VelocityOf(trig, initAngle, initSpeed), initSpeed, spAcc, spMax,
                               initAngle, anAcc, anMax, anMax != 0.0)
    ensures Wf(st) ==> Wf(r)
  {
    var look := SetupColliders(data, st.look.(scale := data.localScale));
    var (phase, look) :=
      if data.startupEffect.durationFrames > 0
      then (st.phase.(isPreparing := true, prepFrameCount := 0), StartupLook(data, look, 0.0))
      else (st.phase.(isPreparing := false), look);
    st.(data := Some(data), team := team, hasSpawner := hasSpawner, nextStepIndex := 0, framesSinceSpawn := 0,
        order := order, phase := phase, look := look,
        motion := Motion(pos, VelocityOf(trig, initAngle, initSpeed), initSpeed, spAcc, spMax, initAngle, anAcc,
                         anMax, anMax != 0.0),
        subSpawnFrameCounter := 0, lifeTimer := 0.0)
  }

  /** ActualDeactivate: the death effect (when the data names one), the
      closing flag cleared, and the bullet back in the pool. */
  function ActualDeactivate(st: BulletState): (r: (BulletState, seq<BulletEvent>))
    ensures r.0 == st.(phase := st.phase.(isClosing := false))
    ensures |r.1| > 0 && r.1[|r.1| - 1] == ReturnedToPool
    ensures (exists k :: 0 <= k < |r.1| && r.1[k].DeathEffect?) <==> st.data.Some? && st.data.value.hasDeathEffect
  {
    var effect := if st.data.Some? && st.data.value.hasDeathEffect
                  then [DeathEffect(st.motion.pos, ScaleBy(st.data.value.localScale, 2.5), st.order)] else [];
    assert effect + [ReturnedToPool] == (if effect == [] then [ReturnedToPool] else [effect[0], ReturnedToPool]);
    (st.(phase := st.phase.(isClosing := false)), effect + [ReturnedToPool])
  }

  /** Deactivate: nothing while already closing; with a startup animation,
      start closing with both colliders off; otherwise retire at once. */
  function DeactivateSpec(st: BulletState): (r: (BulletState, seq<BulletEvent>))
    requires Wf(st)
    ensures st.phase.isClosing ==> r == (st, [])
    ensures !st.phase.isClosing && Duration(st) > 0 ==>
              r.1 == [] && r.0.phase == st.phase.(isClosing := true, closeFrameCount := 0) &&
              r.0 == st.(phase := r.0.phase, look := st.look.(circleEnabled := false, capsuleEnabled := false))
    ensures !st.phase.isClosing && Duration(st) <= 0 ==> r == ActualDeactivate(st)
    ensures Wf(r.0)
  {
    if st.phase.isClosing then (st, [])
    else if st.data.Some? && st.data.value.startupEffect.durationFrames > 0 then
      (st.(phase := st.phase.(isClosing := true, closeFrameCount := 0),
           look := st.look.(circleEnabled := false, capsuleEnabled := false)), [])
    else ActualDeactivate(st)
  }

  /** UpdatePreparation: one more startup frame at progress k/d, with the
      bullet facing `right` and dt the frame's Time.deltaTime; the phase ends
      on the frame k reaches d. A MoveX effect moves the bullet by the value
      it applies times dt; nothing else of the motion changes. */
  function PrepStep(st: BulletState, right: Vec, dt: real): (r: BulletState)
    requires Wf(st) && st.phase.isPreparing
    ensures r.phase.prepFrameCount == st.phase.prepFrameCount + 1
    ensures r.phase.isPreparing <==> st.phase.prepFrameCount + 1 < Duration(st)
    ensures r == st.(phase := r.phase, look := r.look, motion := r.motion)
    ensures r.phase.isClosing == st.phase.isClosing && r.phase.closeFrameCount == st.phase.closeFrameCount
    ensures !r.phase.isPreparing ==> r.look.effectValue == st.data.value.startupEffect.endValue
    ensures st.data.value.startupEffect.kind != MoveX ==> r.motion == st.motion
    ensures st.data.value.startupEffect.kind == MoveX ==>
              r.motion == st.motion.(pos := st.motion.pos.Plus(Nudge(right, r.look.effectValue, dt)))
    ensures Wf(r)
  {
    var k := st.phase.prepFrameCount + 1;
    var d := st.data.value.startupEffect.durationFrames;
    var look := StartupLook(st.data.value, st.look, k as real / d as real);
    st.(phase := st.phase.(prepFrameCount := k, isPreparing := k < d), look := look,
        motion := StartupMotion(st.data.value, st.motion, right, dt, look.effectValue))
  }

  /** The progress of closing frame k of d: 1 - k/d. With d = 0 the source
      divides by zero and the clamped progress is 0. */
  function CloseProgress(k: int, d: int): (r: real)
    ensures k == d ==> r == 0.0
    ensures 0 <= k < d ==> r > 0.0
  {
    if d == 0 then 0.0
    else
      if 0 <= k < d then
        DivBelowOne(k as real, d as real);
        1.0 - k as real / d as real
      else 1.0 - k as real / d as real
  }

  /** UpdateClosing: one more closing frame at progress 1 - k/d, with the
      bullet facing `right` and dt the frame's Time.deltaTime; on the frame k
      reaches d the bullet is retired, after the MoveX step of that frame. */
  function CloseStep(st: BulletState, right: Vec, dt: real): (r: (BulletState, seq<BulletEvent>))
    requires Wf(st) && st.phase.isClosing
    ensures r.0.phase.closeFrameCount == st.phase.closeFrameCount + 1
    ensures r.0.phase.isPreparing == st.phase.isPreparing
    ensures st.phase.closeFrameCount + 1 < Duration(st) ==> r.1 == [] && r.0.phase.isClosing
    ensures st.phase.closeFrameCount + 1 >= Duration(st) ==>
              !r.0.phase.isClosing && |r.1| > 0 && r.1[|r.1| - 1] == ReturnedToPool
    ensures st.phase.closeFrameCount + 1 == Duration(st) ==> r.0.look.effectValue == st.data.value.startupEffect.startValue
    ensures r.0.lifeTimer == st.lifeTimer
    ensures st.data.value.startupEffect.kind != MoveX ==> r.0.motion == st.motion
    ensures st.data.value.startupEffect.kind == MoveX ==>
              r.0.motion == st.motion.(pos := st.motion.pos.Plus(Nudge(right, r.0.look.effectValue, dt)))
    ensures Wf(r.0)
  {
    var k := st.phase.closeFrameCount + 1;
    var d := st.data.value.startupEffect.durationFrames;
    var look := StartupLook(st.data.value, st.look, CloseProgress(k, d));
    var s1 := st.(phase := st.phase.(closeFrameCount := k), look := look,
                  motion := StartupMotion(st.data.value, st.motion, right, dt, look.effectValue));
    if k >= d then ActualDeactivate(s1) else (s1, [])
  }

  predicate OutOfBounds(b: Bounds, p: Vec)
  {
    p.x < b.minX || p.x > b.maxX || p.y < b.minY || p.y > b.maxY
  }

  /** Speed integration with the cap that applies only to a positive maxSpeed. */
  function NextSpeed(m: Motion, dt: real): (r: real)
    ensures m.maxSpeed > 0.0 ==> r <= m.maxSpeed
    ensures m.maxSpeed > 0.0 ==> r == Min(m.speed + m.speedAcc * dt, m.maxSpeed)
    ensures m.maxSpeed <= 0.0 ==> r == m.speed + m.speedAcc * dt
  {
    var sp := m.speed + m.speedAcc * dt;
    if m.maxSpeed > 0.0 && sp > m.maxSpeed then m.maxSpeed else sp
  }

  /** One frame of movement: speed with its cap, angle without one, then the
      velocity and the position. */
  function Integrate(m: Motion, trig: Trig, dt: real): (r: Motion)
    ensures r.speed == NextSpeed(m, dt) && r.angle == m.angle + m.angleAcc * dt
    ensures r.velocity == VelocityOf(trig, r.angle, r.speed) && r.pos == m.pos.Plus(r.velocity.Scale(dt))
    ensures r == m.(speed := r.speed, angle := r.angle, velocity := r.velocity, pos := r.pos)
  {
    var speed := NextSpeed(m, dt);
    var angle := m.angle + m.angleAcc * dt;
    var velocity := VelocityOf(trig, angle, speed);
    m.(speed := speed, angle := angle, velocity := velocity, pos := m.pos.Plus(velocity.Scale(dt)))
  }

  predicate SpawnsSubBullets(st: BulletState)
  {
    st.data.Some? && st.data.value.spawnSubBullets && st.data.value.subShotData.Some?
  }

  /** The sub-bullet timer: accumulate dt, and once it reaches
      spawnIntervalFrames / 60 seconds reset it and fire the sub-shot. */
  function SubSpawnStep(st: BulletState, dt: real): (r: (BulletState, seq<BulletEvent>))
    ensures r.0 == st.(subSpawnTimer := r.0.subSpawnTimer)
    ensures !SpawnsSubBullets(st) ==> r == (st, [])
    ensures |r.1| <= 1
    ensures forall e :: e in r.1 ==> e == SubShot(st.data.value.subShotData.value, st.motion.pos, st.team)
    ensures SpawnsSubBullets(st) ==>
              var t := st.subSpawnTimer + dt;
              var interval := st.data.value.spawnIntervalFrames as real / 60.0;
              (t >= interval ==> r.0.subSpawnTimer == 0.0 && |r.1| == (if st.hasSpawner then 1 else 0)) &&
              (t < interval ==> r.0.subSpawnTimer == t && r.1 == [])
  {
    if SpawnsSubBullets(st) then
      var t := st.subSpawnTimer + dt;
      if t >= st.data.value.spawnIntervalFrames as real / 60.0 then
        (st.(subSpawnTimer := 0.0),
         if st.hasSpawner then [SubShot(st.data.value.subShotData.value, st.motion.pos, st.team)] else [])
      else (st.(subSpawnTimer := t), [])
    else (st, [])
  }

  /** Movement, sub-bullets and the bounds check of an active bullet. */
  function MoveStep(st: BulletState, b: Bounds, trig: Trig, dt: real): (r: (BulletState, seq<BulletEvent>))
    ensures r.0.motion == Integrate(st.motion, trig, dt)
    ensures r.0 == st.(motion := r.0.motion, subSpawnTimer := r.0.subSpawnTimer)
    ensures ReturnedToPool in r.1 <==> OutOfBounds(b, r.0.motion.pos)
    ensures forall e :: e in r.1 ==> !e.DeathEffect?
  {
    var (s2, sub) := SubSpawnStep(st.(motion := Integrate(st.motion, trig, dt)), dt);
    if OutOfBounds(b, s2.motion.pos) then (s2, sub + [ReturnedToPool]) else (s2, sub)
  }

  predicate HasLifespan(st: BulletState)
  {
    st.data.Some? && st.data.value.bulletLifespan > 0.0
  }

  /** The active phase: the lifespan block twice over, then movement. */
  function ActiveStep(st: BulletState, b: Bounds, trig: Trig, dt: real): (r: (BulletState, seq<BulletEvent>))
    requires Wf(st) && !st.phase.isPreparing && !st.phase.isClosing
    ensures Wf(r.0)
  {
    if HasLifespan(st) then
      var t1 := st.lifeTimer + dt;
      if t1 >= st.data.value.bulletLifespan then DeactivateSpec(st.(lifeTimer := t1))
      else
        var t2 := t1 + dt;
        if t2 >= st.data.value.bulletLifespan then DeactivateSpec(st.(lifeTimer := t2))
        else MoveStep(st.(lifeTimer := t2), b, trig, dt)
    else MoveStep(st, b, trig, dt)
  }

  /** Update: count the frame, then run exactly one phase; `right` is the
      bullet's facing direction and dt the frame's Time.deltaTime. The change
      steps are never applied: nextStepIndex and the collider radius do not
      move. */
  function UpdateSpec(st: BulletState, b: Bounds, trig: Trig, right: Vec, dt: real): (r: (BulletState, seq<BulletEvent>))
    requires Wf(st)
    ensures Wf(r.0)
    ensures r.0.framesSinceSpawn == st.framesSinceSpawn + 1
    ensures r.0.nextStepIndex == st.nextStepIndex && r.0.look.circleRadius == st.look.circleRadius
    ensures st.phase.isPreparing ==> r.1 == [] && r.0 == PrepStep(st.(framesSinceSpawn := st.framesSinceSpawn + 1), right, dt)
    ensures !st.phase.isPreparing && st.phase.isClosing ==>
              r == CloseStep(st.(framesSinceSpawn := st.framesSinceSpawn + 1), right, dt)
    ensures !st.phase.isPreparing && !st.phase.isClosing ==>
              r == ActiveStep(st.(framesSinceSpawn := st.framesSinceSpawn + 1), b, trig, dt)
  {
    var s0 := st.(framesSinceSpawn := st.framesSinceSpawn + 1);
    if s0.phase.isPreparing then (PrepStep(s0, right, dt), [])
    else if s0.phase.isClosing then CloseStep(s0, right, dt)
    else ActiveStep(s0, b, trig, dt)
  }

  /** One frame: its Time.deltaTime and the bullet's transform.right at the
      start of its Update. */
  datatype Frame = Frame(dt: real, right: Vec)

  /** Updates for the given frames, in order, with all their events. */
  function Run(st: BulletState, b: Bounds, trig: Trig, frames: seq<Frame>): (r: (BulletState, seq<BulletEvent>))
    requires Wf(st)
    ensures Wf(r.0)
    decreases |frames|
  {
    if |frames| == 0 then (st, [])
    else
      var (s1, e1) := UpdateSpec(st, b, trig, frames[0].right, frames[0].dt);
      var (s2, e2) := Run(s1, b, trig, frames[1..]);
      (s2, e1 + e2)
  }

  /** The effect value of startup frame k (counting from 1): at progress k/d
      while preparing and at progress 1 - k/d while closing. */
  function FrameValue(e: StartupEffect, k: int, closing: bool): (r: real)
    ensures e.startValue == e.endValue ==> r == e.startValue
  {
    var t := if closing then CloseProgress(k, e.durationFrames)
             else if e.durationFrames == 0 then 0.0 else k as real / e.durationFrames as real;
    Lerp(e.startValue, e.endValue, t)
  }

  /** The effect values of the n startup frames after frame k. */
  function Values(e: StartupEffect, k: int, closing: bool, n: nat): (r: seq<real>)
    ensures |r| == n
  {
    seq(n, i requires 0 <= i < n => FrameValue(e, k + 1 + i, closing))
  }

  lemma ValuesShift(e: StartupEffect, k: int, closing: bool, n: nat)
    requires n > 0
    ensures Values(e, k, closing, n)[0] == FrameValue(e, k + 1, closing)
    ensures Values(e, k, closing, n)[1..] == Values(e, k + 1, closing, n - 1)
  {
  }

  /** Where MoveX steps that apply the given values over the frames take a
      bullet that starts at pos: each frame adds right * value * dt. */
  function DriftFrom(pos: Vec, values: seq<real>, frames: seq<Frame>): Vec
    requires |values| == |frames|
    decreases |frames|
  {
    if |frames| == 0 then pos
    else DriftFrom(pos.Plus(Nudge(frames[0].right, values[0], frames[0].dt)), values[1..], frames[1..])
  }

  /** The total time of the frames. */
  function Elapsed(frames: seq<Frame>): real
    decreases |frames|
  {
    if |frames| == 0 then 0.0 else frames[0].dt + Elapsed(frames[1..])
  }

  lemma NudgeAdds(pos: Vec, right: Vec, v: real, dt: real, e: real)
    ensures pos.Plus(Nudge(right, v, dt)).Plus(Nudge(right, v, e)) == pos.Plus(Nudge(right, v, dt + e))
  {
    assert right.x * (v * dt) + right.x * (v * e) == right.x * (v * (dt + e));
    assert right.y * (v * dt) + right.y * (v * e) == right.y * (v * (dt + e));
  }

  /** MoveX steps that all apply one value v, facing one way, carry the
      bullet right * v * (the elapsed time). */
  lemma {:induction false} ConstantDrift(pos: Vec, values: seq<real>, frames: seq<Frame>, v: real, right: Vec)
    requires |values| == |frames|
    requires forall i :: 0 <= i < |frames| ==> values[i] == v && frames[i].right == right
    ensures DriftFrom(pos, values, frames) == pos.Plus(Nudge(right, v, Elapsed(frames)))
    decreases |frames|
  {
    if |frames| == 0 {
      assert pos.Plus(Nudge(right, v, 0.0)) == pos;
    } else {
      var dt, rest := frames[0].dt, frames[1..];
      var p1 := pos.Plus(Nudge(right, v, dt));
      assert values[0] == v && frames[0].right == right;
      assert DriftFrom(pos, values, frames) == DriftFrom(p1, values[1..], rest);
      ConstantDrift(p1, values[1..], rest, v, right);
      NudgeAdds(pos, right, v, dt, Elapsed(rest));
      assert Elapsed(frames) == dt + Elapsed(rest);
    }
  }

  /** An effect whose start and end values agree applies that value on every frame. */
  lemma ConstantValues(e: StartupEffect, k: int, closing: bool, n: nat)
    requires e.startValue == e.endValue
    ensures forall i :: 0 <= i < n ==> Values(e, k, closing, n)[i] == e.startValue
  {
    forall i | 0 <= i < n ensures Values(e, k, closing, n)[i] == e.startValue {
      assert Values(e, k, closing, n)[i] == FrameValue(e, k + 1 + i, closing);
    }
  }

  /** A MoveX effect whose start and end values are both v, facing one way,
      carries the bullet right * v * (the elapsed time), preparing or closing:
      v = 5 over 30 frames of 1/60 s moves it 2.5 units. */
  lemma ConstantEffectDrift(e: StartupEffect, k: int, closing: bool, pos: Vec, frames: seq<Frame>, right: Vec)
    requires e.startValue == e.endValue
    requires forall i :: 0 <= i < |frames| ==> frames[i].right == right
    ensures DriftFrom(pos, Values(e, k, closing, |frames|), frames) == pos.Plus(Nudge(right, e.startValue, Elapsed(frames)))
  {
    ConstantValues(e, k, closing, |frames|);
    ConstantDrift(pos, Values(e, k, closing, |frames|), frames, e.startValue, right);
  }

  /** Preparing lasts exactly durationFrames Updates: during them the bullet
      neither ages nor emits anything, and the animation ends at progress 1. */
  lemma {:induction false} PreparingLastsDuration(st: BulletState, b: Bounds, trig: Trig, frames: seq<Frame>)
    requires Wf(st) && st.phase.isPreparing
    requires st.phase.prepFrameCount + |frames| <= Duration(st)
    ensures var (r, events) := Run(st, b, trig, frames);
            events == [] &&
            r.phase.prepFrameCount == st.phase.prepFrameCount + |frames| &&
            (r.phase.isPreparing <==> st.phase.prepFrameCount + |frames| < Duration(st)) &&
            r.framesSinceSpawn == st.framesSinceSpawn + |frames| &&
            r.lifeTimer == st.lifeTimer && r.subSpawnTimer == st.subSpawnTimer &&
            r.phase.isClosing == st.phase.isClosing && r.data == st.data &&
            (|frames| > 0 && !r.phase.isPreparing ==> r.look.effectValue == st.data.value.startupEffect.endValue)
    decreases |frames|
  {
    if |frames| > 0 {
      var (s1, e1) := UpdateSpec(st, b, trig, frames[0].right, frames[0].dt);
      if s1.phase.isPreparing {
        PreparingLastsDuration(s1, b, trig, frames[1..]);
      } else {
        assert |frames[1..]| == 0;
      }
    }
  }

  /** While preparing, the bullet moves only by a MoveX effect's drift. */
  lemma {:induction false} PreparingMovesByDrift(st: BulletState, b: Bounds, trig: Trig, frames: seq<Frame>)
    requires Wf(st) && st.phase.isPreparing
    requires st.phase.prepFrameCount + |frames| <= Duration(st)
    ensures var r := Run(st, b, trig, frames).0;
            var e := st.data.value.startupEffect;
            (e.kind != MoveX ==> r.motion == st.motion) &&
            (e.kind == MoveX ==>
               r.motion == st.motion.(pos := DriftFrom(st.motion.pos, Values(e, st.phase.prepFrameCount, false, |frames|), frames)))
    decreases |frames|
  {
    if |frames| > 0 {
      var s1 := UpdateSpec(st, b, trig, frames[0].right, frames[0].dt).0;
      var e := st.data.value.startupEffect;
      var k := st.phase.prepFrameCount;
      assert s1 == PrepStep(st.(framesSinceSpawn := st.framesSinceSpawn + 1), frames[0].right, frames[0].dt);
      assert s1.data == st.data;
      var value := FrameValue(e, k + 1, false);
      assert s1.look.effectValue == value;
      if s1.phase.isPreparing {
        PreparingMovesByDrift(s1, b, trig, frames[1..]);
        ValuesShift(e, k, false, |frames|);
      } else {
        assert |frames[1..]| == 0;
      }
    }
  }

  /** Closing lasts exactly durationFrames Updates when started by Deactivate:
      before the last one the bullet is still closing and emits nothing. */
  lemma {:induction false} ClosingLastsDuration(st: BulletState, b: Bounds, trig: Trig, frames: seq<Frame>)
    requires Wf(st) && st.phase.isClosing && !st.phase.isPreparing
    requires st.phase.closeFrameCount + |frames| < Duration(st)
    ensures var (r, events) := Run(st, b, trig, frames);
            events == [] && r.phase.isClosing && !r.phase.isPreparing &&
            r.phase.closeFrameCount == st.phase.closeFrameCount + |frames| &&
            r.lifeTimer == st.lifeTimer && r.data == st.data
    decreases |frames|
  {
    if |frames| > 0 {
      var (s1, e1) := UpdateSpec(st, b, trig, frames[0].right, frames[0].dt);
      ClosingLastsDuration(s1, b, trig, frames[1..]);
    }
  }

  /** Before its last frame a closing bullet moves only by a MoveX effect's drift. */
  lemma {:induction false} ClosingMovesByDrift(st: BulletState, b: Bounds, trig: Trig, frames: seq<Frame>)
    requires Wf(st) && st.phase.isClosing && !st.phase.isPreparing
    requires st.phase.closeFrameCount + |frames| < Duration(st)
    ensures var r := Run(st, b, trig, frames).0;
            var e := st.data.value.startupEffect;
            (e.kind != MoveX ==> r.motion == st.motion) &&
            (e.kind == MoveX ==>
               r.motion == st.motion.(pos := DriftFrom(st.motion.pos, Values(e, st.phase.closeFrameCount, true, |frames|), frames)))
    decreases |frames|
  {
    if |frames| > 0 {
      var (s1, e1) := UpdateSpec(st, b, trig, frames[0].right, frames[0].dt);
      var e := st.data.value.startupEffect;
      var k := st.phase.closeFrameCount;
      assert (s1, e1) == CloseStep(st.(framesSinceSpawn := st.framesSinceSpawn + 1), frames[0].right, frames[0].dt);
      assert s1.data == st.data && s1.phase.isClosing && !s1.phase.isPreparing;
      var value := FrameValue(e, k + 1, true);
      assert s1.look.effectValue == value;
      ClosingMovesByDrift(s1, b, trig, frames[1..]);
      ValuesShift(e, k, true, |frames|);
    }
  }

  /** The last closing Update retires the bullet, with the animation back at
      progress 0. */
  lemma ClosingEnds(st: BulletState, b: Bounds, trig: Trig, right: Vec, dt: real)
    requires Wf(st) && st.phase.isClosing && !st.phase.isPreparing
    requires st.phase.closeFrameCount + 1 == Duration(st)
    ensures var (r, events) := UpdateSpec(st, b, trig, right, dt);
            !r.phase.isClosing && |events| > 0 && events[|events| - 1] == ReturnedToPool &&
            r.look.effectValue == st.data.value.startupEffect.startValue
  {
  }

  /** The lifespan block runs twice per frame: an active bullet that survives
      the frame has aged by 2 dt; without a positive lifespan it never ages
      and is never deactivated by age. */
  lemma LifespanCountsTwice(st: BulletState, b: Bounds, trig: Trig, right: Vec, dt: real)
    requires Wf(st) && !st.phase.isPreparing && !st.phase.isClosing && dt >= 0.0
    ensures var (r, events) := UpdateSpec(st, b, trig, right, dt);
            (HasLifespan(st) && st.lifeTimer + 2.0 * dt < st.data.value.bulletLifespan ==>
               r.lifeTimer == st.lifeTimer + 2.0 * dt && r.motion == Integrate(st.motion, trig, dt) &&
               !r.phase.isClosing) &&
            (HasLifespan(st) && st.lifeTimer + 2.0 * dt >= st.data.value.bulletLifespan ==>
               (r, events) == DeactivateSpec(st.(framesSinceSpawn := st.framesSinceSpawn + 1,
                                                 lifeTimer := r.lifeTimer)) &&
               (r.lifeTimer == st.lifeTimer + dt || r.lifeTimer == st.lifeTimer + 2.0 * dt)) &&
            (!HasLifespan(st) ==>
               r.lifeTimer == st.lifeTimer && r.motion == Integrate(st.motion, trig, dt) && !r.phase.isClosing &&
               forall e :: e in events ==> !e.DeathEffect?)
  {
  }

  /** Leaving the bounds returns the bullet to the pool directly: no closing
      animation and no death effect. */
  lemma OutOfBoundsReturnsDirectly(st: BulletState, b: Bounds, trig: Trig, right: Vec, dt: real)
    requires Wf(st) && !st.phase.isPreparing && !st.phase.isClosing && !HasLifespan(st)
    ensures var (r, events) := UpdateSpec(st, b, trig, right, dt);
            (ReturnedToPool in events <==> OutOfBounds(b, r.motion.pos)) &&
            !r.phase.isClosing && (forall e :: e in events ==> !e.DeathEffect?)
  {
  }

  /** The speed cap holds after every frame in which the bullet moves. */
  lemma SpeedStaysCapped(st: BulletState, b: Bounds, trig: Trig, right: Vec, dt: real)
    requires Wf(st) && !st.phase.isPreparing && !st.phase.isClosing && !HasLifespan(st) && st.motion.maxSpeed > 0.0
    ensures UpdateSpec(st, b, trig, right, dt).0.motion.speed <= st.motion.maxSpeed
  {
  }

  /** ApplyNextStep: a positive radius, a non-zero scale, and (when the step
      changes the trajectory) the speed, acceleration and an absolute or
      relative angle. */
  function ApplyNextStep(st: BulletState, step: ChangeStep): (r: BulletState)
    ensures r.look.circleRadius == (if step.newColliderRadius > 0.0 then step.newColliderRadius else st.look.circleRadius)
    ensures r.look.scale == (if step.newScale != Vec3(0.0, 0.0, 0.0) then step.newScale else st.look.scale)
    ensures !step.changeTrajectory ==> r.motion == st.motion
    ensures step.changeTrajectory ==>
              r.motion.speed == step.newSpeed && r.motion.speedAcc == step.newSpeedAcc &&
              r.motion.angle == (if step.isAbsoluteAngle then step.newAngleOffset else st.motion.angle + step.newAngleOffset)
    ensures r.motion.velocity == st.motion.velocity && r.motion.pos == st.motion.pos
    ensures r == st.(motion := r.motion, look := r.look)
  {
    var look1 := if step.newColliderRadius > 0.0 then st.look.(circleRadius := step.newColliderRadius) else st.look;
    var look2 := if step.newScale != Vec3(0.0, 0.0, 0.0) then look1.(scale := step.newScale) else look1;
    var motion :=
      if step.changeTrajectory then
        st.motion.(speed := step.newSpeed, speedAcc := step.newSpeedAcc,
                   angle := if step.isAbsoluteAngle then step.newAngleOffset else st.motion.angle + step.newAngleOffset)
      else st.motion;
    st.(motion := motion, look := look2)
  }

  class EnemyBullet {
    /** The object this component lives on. */
    const id: Pool.Obj
    const bounds: Bounds
    var motion: Motion
    var phase: Phase
    var look: Look
    var data: Option<BulletData>
    var team: TeamSide
    var hasSpawner: bool
    var order: int
    var lifeTimer: real
    var subSpawnTimer: real
    var subSpawnFrameCounter: int
    var nextStepIndex: int
    var framesSinceSpawn: int

    function State(): BulletState
      reads this
    {
      BulletState(motion, phase, look, data, team, hasSpawner, order, lifeTimer, subSpawnTimer,
                  subSpawnFrameCounter, nextStepIndex, framesSinceSpawn)
    }

    ghost predicate Valid()
      reads this
    {
      Wf(State())
    }

    /** A freshly instantiated bullet prefab: no data, nothing running. */
    constructor (id: Pool.Obj, bounds: Bounds)
      ensures Valid() && this.id == id && this.bounds == bounds
      ensures data.None? && !phase.isPreparing && !phase.isClosing && lifeTimer == 0.0 && subSpawnTimer == 0.0
    {
      this.id := id;
      this.bounds := bounds;
      motion := Motion(Vec(0.0, 0.0), Vec(0.0, 0.0), 0.0, 0.0, 0.0, 0.0, 0.0, 0.0, false);
      phase := Phase(false, 0, false, 0);
      look := Look(true, true, 0.0, Vec3(1.0, 1.0, 1.0), 0.0);
      data := None;
      team := Player1;
      hasSpawner := false;
      order := 0;
      lifeTimer, subSpawnTimer := 0.0, 0.0;
      subSpawnFrameCounter, nextStepIndex, framesSinceSpawn := 0, 0, 0;
    }

    /** DamageValue: the data's damage, or 1 before any Setup. */
    function DamageValue(): (r: int)
      reads this
      ensures data.None? ==> r == 1
      ensures data.Some? ==> r == data.value.damage
    {
      if data.Some? then data.value.damage else 1
    }

    method Setup(d: BulletData, p: Vec, initSpeed: real, spAcc: real, spMax: real, initAngle: real,
                 anAcc: real, anMax: real, orderInLayer: int, side: TeamSide, spawner: bool, trig: Trig)
      requires Valid()
      modifies this
      ensures Valid()
      ensures State() == SetupSpec(old(State()), d, p, initSpeed, spAcc, spMax, initAngle, anAcc, anMax,
                                   orderInLayer, side, spawner, trig)
    {
      hasSpawner := spawner;
      team := side;
      data := Some(d);
      nextStepIndex := 0;
      framesSinceSpawn := 0;
      order := orderInLayer;
      look := SetupColliders(d, look.(scale := d.localScale));
      if d.startupEffect.durationFrames > 0 {
        phase := phase.(isPreparing := true, prepFrameCount := 0);
        look := StartupLook(d, look, 0.0);
      } else {
        phase := phase.(isPreparing := false);
      }
      motion := Motion(p, VelocityOf(trig, initAngle, initSpeed), initSpeed, spAcc, spMax, initAngle, anAcc,
                       anMax, anMax != 0.0);
      subSpawnFrameCounter := 0;
      lifeTimer := 0.0;
    }

    /** ActualDeactivate, including the pool call. */
    method RetireNow(pool: Pool.BulletPool) returns (events: seq<BulletEvent>)
      requires pool.Valid() && Pool.Existing(pool.State(), id)
      modifies this, pool
      ensures pool.Valid() && pool.State() == Pool.ReturnSpec(old(pool.State()), id)
      ensures (State(), events) == ActualDeactivate(old(State()))
    {
      events := [];
      if data.Some? && data.value.hasDeathEffect {
        events := [DeathEffect(motion.pos, ScaleBy(data.value.localScale, 2.5), order)];
      }
      phase := phase.(isClosing := false);
      pool.ReturnToPool(id);
      events := events + [ReturnedToPool];
    }

    method Deactivate(pool: Pool.BulletPool) returns (events: seq<BulletEvent>)
      requires Valid() && pool.Valid() && Pool.Existing(pool.State(), id)
      modifies this, pool
      ensures Valid() && pool.Valid()
      ensures (State(), events) == DeactivateSpec(old(State()))
      ensures pool.State() == if ReturnedToPool in events then Pool.ReturnSpec(old(pool.State()), id) else old(pool.State())
    {
      if phase.isClosing {
        return [];
      }
      if data.Some? && data.value.startupEffect.durationFrames > 0 {
        phase := phase.(isClosing := true, closeFrameCount := 0);
        look := look.(circleEnabled := false, capsuleEnabled := false);
        events := [];
      } else {
        events := RetireNow(pool);
      }
    }

    /** ApplyStartupEffect on the fields: the look, and for MoveX the position. */
    method ApplyStartupEffect(t: real, right: Vec, dt: real)
      requires data.Some?
      modifies this
      ensures data == old(data)
      ensures look == StartupLook(data.value, old(look), t)
      ensures motion == StartupMotion(data.value, old(motion), right, dt, look.effectValue)
      ensures State() == old(State()).(look := look, motion := motion)
    {
      look := StartupLook(data.value, look, t);
      if data.value.startupEffect.kind == MoveX {
        motion := motion.(pos := motion.pos.Plus(Nudge(right, look.effectValue, dt)));
      }
    }

    method UpdatePreparation(right: Vec, dt: real)
      requires Valid() && phase.isPreparing
      modifies this
      ensures State() == PrepStep(old(State()), right, dt)
    {
      var k := phase.prepFrameCount + 1;
      phase := phase.(prepFrameCount := k);
      var d := data.value.startupEffect.durationFrames;
      ApplyStartupEffect(k as real / d as real, right, dt);
      if k >= d {
        phase := phase.(isPreparing := false);
      }
    }

    method UpdateClosing(pool: Pool.BulletPool, right: Vec, dt: real) returns (events: seq<BulletEvent>)
      requires Valid() && phase.isClosing && pool.Valid() && Pool.Existing(pool.State(), id)
      modifies this, pool
      ensures pool.Valid()
      ensures (State(), events) == CloseStep(old(State()), right, dt)
      ensures pool.State() == if ReturnedToPool in events then Pool.ReturnSpec(old(pool.State()), id) else old(pool.State())
    {
      var k := phase.closeFrameCount + 1;
      phase := phase.(closeFrameCount := k);
      var d := data.value.startupEffect.durationFrames;
      ApplyStartupEffect(CloseProgress(k, d), right, dt);
      if k >= d {
        events := RetireNow(pool);
      } else {
        events := [];
      }
    }

    /** Movement, the sub-bullet timer and CheckOutOfBounds. */
    method Move(pool: Pool.BulletPool, trig: Trig, dt: real) returns (events: seq<BulletEvent>)
      requires pool.Valid() && Pool.Existing(pool.State(), id)
      modifies this, pool
      ensures pool.Valid()
      ensures (State(), events) == MoveStep(old(State()), bounds, trig, dt)
      ensures pool.State() == if ReturnedToPool in events then Pool.ReturnSpec(old(pool.State()), id) else old(pool.State())
    {
      var speed := motion.speed + motion.speedAcc * dt;
      if motion.maxSpeed > 0.0 && speed > motion.maxSpeed {
        speed := motion.maxSpeed;
      }
      assert speed == NextSpeed(motion, dt);
      var angle := motion.angle + motion.angleAcc * dt;
      var velocity := VelocityOf(trig, angle, speed);
      motion := motion.(speed := speed, angle := angle, velocity := velocity, pos := motion.pos.Plus(velocity.Scale(dt)));
      ghost var im := Integrate(old(motion), trig, dt);
      assert motion.speed == im.speed;
      assert motion.angle == im.angle;
      assert motion.velocity == im.velocity;
      assert motion.pos == im.pos;
      assert motion.maxSpeed == im.maxSpeed;
      assert motion == im;
      ghost var sub := SubSpawnStep(State(), dt);
      events := [];
      if data.Some? && data.value.spawnSubBullets && data.value.subShotData.Some? {
        subSpawnTimer := subSpawnTimer + dt;
        if subSpawnTimer >= data.value.spawnIntervalFrames as real / 60.0 {
          subSpawnTimer := 0.0;
          if hasSpawner {
            events := [SubShot(data.value.subShotData.value, motion.pos, team)];
          }
        }
      }
      assert (State(), events) == sub;
      if OutOfBounds(bounds, motion.pos) {
        pool.ReturnToPool(id);
        events := events + [ReturnedToPool];
      }
    }

    /** Update, with `right` the bullet's transform.right and dt the frame's
        Time.deltaTime. */
    method Update(pool: Pool.BulletPool, trig: Trig, right: Vec, dt: real) returns (events: seq<BulletEvent>)
      requires Valid() && pool.Valid() && Pool.Existing(pool.State(), id)
      modifies this, pool
      ensures Valid() && pool.Valid()
      ensures (State(), events) == UpdateSpec(old(State()), bounds, trig, right, dt)
      ensures pool.State() == if ReturnedToPool in events then Pool.ReturnSpec(old(pool.State()), id) else old(pool.State())
    {
      framesSinceSpawn := framesSinceSpawn + 1;
      if phase.isPreparing {
        UpdatePreparation(right, dt);
        return [];
      }
      if phase.isClosing {
        events := UpdateClosing(pool, right, dt);
        return;
      }
      if data.Some? && data.value.bulletLifespan > 0.0 {
        lifeTimer := lifeTimer + dt;
        if lifeTimer >= data.value.bulletLifespan {
          events := Deactivate(pool);
          return;
        }
      }
      if data.Some? && data.value.bulletLifespan > 0.0 {
        lifeTimer := lifeTimer + dt;
        if lifeTimer >= data.value.bulletLifespan {
          events := Deactivate(pool);
          return;
        }
      }
      events := Move(pool, trig, dt);
    }

    /** ApplyNextStep on the bullet's fields; Update never calls it. */
    method ApplyStep(step: ChangeStep)
      modifies this
      ensures State() == ApplyNextStep(old(State()), step)
    {
      if step.newColliderRadius > 0.0 {
        look := look.(circleRadius := step.newColliderRadius);
      }
      if step.newScale != Vec3(0.0, 0.0, 0.0) {
        look := look.(scale := step.newScale);
      }
      if step.changeTrajectory {
        motion := motion.(speed := step.newSpeed, speedAcc := step.newSpeedAcc);
        if step.isAbsoluteAngle {
          motion := motion.(angle := step.newAngleOffset);
        } else {
          motion := motion.(angle := motion.angle + step.newAngleOffset);
        }
      }
    }
  }
}
