/** MagicCircle: a skill object with three exclusive modes (periodic firing
    while homing, manual forward move, travel to a destination and then one
    barrage), a grow/shrink animation, an expiry, and the power to clear the
    opponent's bullets. The two coroutines (ExpireRoutine and
    ExecuteBarrageRoutine) are lists of pending waits, each the time it still
    has to run; they are advanced after the mode handler, as Unity resumes
    coroutines after Update. */
module Circle {
  import opened Common
  import opened BulletConfig

  const ExpandSpeed: real := 8.0
  const ShrinkSpeed: real := 5.0
  const TravelSpeed: real := 18.0
  const ArrivalDistance: real := 0.01
  const MinLifeDivisor: real := 0.01
  const HomingFraction: real := 0.7
  const BarrageDelay: real := 0.6
  const ArrivalRadius: real := 0.5
  const ArrivalDuration: real := 2.0
  const MovingBarrageScale: real := 0.8
  const TravelScale: real := 0.5
  const ManualSpeed: real := 5.0
  const DestroyScale: real := 0.05

  /** Mode flags and the bullet-clearing switch. */
  datatype Mode = Mode(periodic: bool, manual: bool, destination: Option<Vec>, canClear: bool)

  /** What the circle fires and for whom: barrageData (null until launched),
      spawnerRef != null, mySide and mySkillIndex. */
  datatype Barrage = Barrage(shots: Option<seq<ShotData>>, hasSpawner: bool, side: TeamSide,
                             skillIndex: int)

  /** moveSpeed, lifeTimer, fireInterval, fireTimer and totalDuration. */
  datatype Clock = Clock(moveSpeed: real, lifeTimer: real, fireInterval: real, fireTimer: real,
                         totalDuration: real)

  /** Pending ExpireRoutine and ExecuteBarrageRoutine waits, oldest first. */
  datatype Waits = Waits(expiry: seq<real>, barrage: seq<real>)

  /** localScale.x, targetScale.x, isExpiring, currentRadius, and whether
      Destroy(gameObject) has been called. */
  datatype Look = Look(scaleX: real, targetScale: real, isExpiring: bool, radius: real,
                       destroyed: bool)

  datatype CircleState = CircleState(
    pos: Vec,
    mode: Mode,
    barrage: Barrage,
    clock: Clock,
    waits: Waits,
    look: Look,
    moveDir: int,
    manualSpeed: real,
    team: TeamSide,
    opponentLayer: Layer)

  /** One frame's inputs: the engine's square root, Time.deltaTime, the owning
      spawner's position and its Target's position, if any. */
  datatype World = World(trig: Trig, dt: real, owner: Vec, target: Option<Vec>)

  /** A call spawnerRef.ExecuteShot(shot, step, skillIndex, origin, side). */
  datatype ShotOrder = ShotOrder(shot: ShotData, step: int, skillIndex: int, origin: Vec,
                                 side: TeamSide)

  /** The loop over barrageData, guarded by spawnerRef != null && barrageData != null. */
  function Orders(b: Barrage, skillIndex: int, origin: Vec): (r: seq<ShotOrder>)
    ensures b.hasSpawner && b.shots.Some? ==>
              |r| == |b.shots.value| &&
              forall i :: 0 <= i < |r| ==>
                r[i] == ShotOrder(b.shots.value[i], 0, skillIndex, origin, b.side)
    ensures !(b.hasSpawner && b.shots.Some?) ==> r == []
  {
    if b.hasSpawner && b.shots.Some? then
      seq(|b.shots.value|, i requires 0 <= i < |b.shots.value| =>
        ShotOrder(b.shots.value[i], 0, skillIndex, origin, b.side))
    else []
  }

  /** os, n times over. */
  function RepeatOrders(os: seq<ShotOrder>, n: nat): (r: seq<ShotOrder>)
    ensures |r| == n * |os|
  {
    if n == 0 then [] else RepeatOrders(os, n - 1) + os
  }

  /** Activate(radius, duration): remember the radius, cancel the expiry, grow
      to the radius and start a new ExpireRoutine. */
  function ActivateSpec(st: CircleState, radius: real, duration: real): (r: CircleState)
    ensures r.look.radius == radius && !r.look.isExpiring && r.look.targetScale == radius
    ensures r.waits.expiry == st.waits.expiry + [duration]
    ensures r.waits.barrage == st.waits.barrage
    ensures r.pos == st.pos && r.mode == st.mode && r.clock == st.clock
    ensures r.look.scaleX == st.look.scaleX && r.look.destroyed == st.look.destroyed
  {
    st.(look := st.look.(radius := radius, isExpiring := false, targetScale := radius),
        waits := st.waits.(expiry := st.waits.expiry + [duration]))
  }

  /** The point 70% of the way from the owner to its target. */
  function HomingPoint(owner: Vec, enemy: Vec): Vec
  {
    LerpVec(owner, enemy, HomingFraction)
  }

  /** The homing step: the speed that would reach the homing point exactly when
      the life runs out, distance / max(lifeTimer, 0.01), for one frame. */
  function HomingStep(trig: Trig, pos: Vec, point: Vec, life: real, dt: real): Vec
  {
    var speed := Distance(trig, pos, point) / Max(life, MinLifeDivisor);
    MoveTowardsVec(trig, pos, point, speed * dt)
  }

  /** HandlePeriodicFiringMode. */
  function PeriodicStep(st: CircleState, w: World): (r: (CircleState, seq<ShotOrder>))
    ensures r.0.clock.lifeTimer == st.clock.lifeTimer - w.dt
    ensures r.0.waits == st.waits && r.0.mode.manual == st.mode.manual
    ensures r.0.look.radius == st.look.radius && r.0.look.scaleX == st.look.scaleX
    ensures st.clock.lifeTimer - w.dt <= 0.0 ==>
              !r.0.mode.periodic && r.0.look.isExpiring && r.0.look.targetScale == 0.0 &&
              r.0.mode.destination == None && r.1 == [] && r.0.pos == st.pos &&
              r.0.clock.fireTimer == st.clock.fireTimer
    ensures st.clock.lifeTimer - w.dt > 0.0 ==>
              r.0.mode == st.mode && r.0.look == st.look &&
              (st.clock.fireTimer - w.dt <= 0.0 ==>
                 r.0.clock.fireTimer == st.clock.fireInterval &&
                 r.1 == Orders(st.barrage, st.barrage.skillIndex, r.0.pos)) &&
              (st.clock.fireTimer - w.dt > 0.0 ==>
                 r.0.clock.fireTimer == st.clock.fireTimer - w.dt && r.1 == [])
    ensures !(st.barrage.hasSpawner && w.target.Some?) ==> r.0.pos == st.pos
  {
    var life := st.clock.lifeTimer - w.dt;
    if life <= 0.0 then
      (st.(mode := st.mode.(periodic := false, destination := None),
           look := st.look.(isExpiring := true, targetScale := 0.0),
           clock := st.clock.(lifeTimer := life)), [])
    else
      var pos := if st.barrage.hasSpawner && w.target.Some?
                 then HomingStep(w.trig, st.pos, HomingPoint(w.owner, w.target.value), life, w.dt)
                 else st.pos;
      var fire := st.clock.fireTimer - w.dt;
      if fire <= 0.0 then
        (st.(pos := pos, clock := st.clock.(lifeTimer := life, fireTimer := st.clock.fireInterval)),
         Orders(st.barrage, st.barrage.skillIndex, pos))
      else
        (st.(pos := pos, clock := st.clock.(lifeTimer := life, fireTimer := fire)), [])
  }

  /** HandleManualMoveMode: x += moveDir * currentManualSpeed * dt. */
  function ManualStep(st: CircleState, dt: real): (r: CircleState)
    ensures r.pos.y == st.pos.y && r.pos.x - st.pos.x == st.moveDir as real * st.manualSpeed * dt
    ensures r.(pos := st.pos) == st
  {
    st.(pos := st.pos.Plus(Vec(st.moveDir as real * st.manualSpeed * dt, 0.0)))
  }

  /** HandleNormalRemoteMode: travel at 18 units/s; on arrival clear the
      destination, Activate(0.5, 2.0) and start the 0.6 s barrage wait. */
  function TravelStep(st: CircleState, w: World): (r: CircleState)
    requires st.mode.destination.Some?
    ensures r.pos == MoveTowardsVec(w.trig, st.pos, st.mode.destination.value, TravelSpeed * w.dt)
    ensures r.clock == st.clock && r.mode.periodic == st.mode.periodic && r.mode.manual == st.mode.manual
    ensures Distance(w.trig, r.pos, st.mode.destination.value) < ArrivalDistance ==>
              r.mode.destination == None && r.look.radius == ArrivalRadius &&
              !r.look.isExpiring && r.look.targetScale == ArrivalRadius &&
              r.waits == Waits(st.waits.expiry + [ArrivalDuration], st.waits.barrage + [BarrageDelay])
    ensures Distance(w.trig, r.pos, st.mode.destination.value) >= ArrivalDistance ==>
              r.mode == st.mode && r.look == st.look && r.waits == st.waits
  {
    var dest := st.mode.destination.value;
    var p := MoveTowardsVec(w.trig, st.pos, dest, TravelSpeed * w.dt);
    if Distance(w.trig, p, dest) < ArrivalDistance then
      var a := ActivateSpec(st.(pos := p, mode := st.mode.(destination := None)),
                            ArrivalRadius, ArrivalDuration);
      a.(waits := a.waits.(barrage := a.waits.barrage + [BarrageDelay]))
    else
      st.(pos := p)
  }

  /** The mode dispatch of Update: periodic firing, else manual move, else
      travel while a destination is set. */
  function HandlerStep(st: CircleState, w: World): (r: (CircleState, seq<ShotOrder>))
  {
    if st.mode.periodic then PeriodicStep(st, w)
    else if st.mode.manual then (ManualStep(st, w.dt), [])
    else if st.mode.destination.Some? then (TravelStep(st, w), [])
    else (st, [])
  }

  /** The scale animation and the self-destruction test of Update. */
  function ScaleStep(look: Look, dt: real): (r: Look)
    ensures r.targetScale == look.targetScale && r.isExpiring == look.isExpiring
    ensures r.radius == look.radius
    ensures r.destroyed <==> look.destroyed || (look.isExpiring && r.scaleX < DestroyScale)
    ensures look.scaleX <= look.targetScale ==> look.scaleX <= r.scaleX <= look.targetScale
    ensures look.targetScale <= look.scaleX ==> look.targetScale <= r.scaleX <= look.scaleX
  {
    var s := if look.isExpiring then ShrinkSpeed else ExpandSpeed;
    var x := Lerp(look.scaleX, look.targetScale, dt * s);
    look.(scaleX := x, destroyed := look.destroyed || (look.isExpiring && x < DestroyScale))
  }

  /** One frame of a list of waits: each loses dt; those that reach zero
      finish (and are counted), the others stay pending in order. */
  function AdvanceWaits(ts: seq<real>, dt: real): (r: (seq<real>, nat))
    ensures |r.0| + r.1 == |ts|
    ensures forall k :: 0 <= k < |r.0| ==> r.0[k] > 0.0
    ensures r.1 == 0 <==> forall k :: 0 <= k < |ts| ==> ts[k] - dt > 0.0
  {
    if ts == [] then ([], 0)
    else
      var prev := AdvanceWaits(ts[..|ts| - 1], dt);
      assert forall k :: 0 <= k < |ts| - 1 ==> ts[..|ts| - 1][k] == ts[k];
      var t := ts[|ts| - 1] - dt;
      if t <= 0.0 then (prev.0, prev.1 + 1) else (prev.0 + [t], prev.1)
  }

  /** The coroutine phase of a frame for the waits that were pending when the
      frame began (the first nEx expiry and nBa barrage waits; waits started
      during this frame's Update have not begun to count). A finished barrage
      wait fires the barrage from the current position with skill index 0; any
      finished wait starts the expiry. */
  function CoroutineStep(st: CircleState, nEx: nat, nBa: nat, dt: real): (r: (CircleState, seq<ShotOrder>))
    requires nEx <= |st.waits.expiry| && nBa <= |st.waits.barrage|
  {
    var ex := AdvanceWaits(st.waits.expiry[..nEx], dt);
    var ba := AdvanceWaits(st.waits.barrage[..nBa], dt);
    var waits := Waits(ex.0 + st.waits.expiry[nEx..], ba.0 + st.waits.barrage[nBa..]);
    var look := if ex.1 + ba.1 > 0 then st.look.(isExpiring := true, targetScale := 0.0) else st.look;
    (st.(waits := waits, look := look), RepeatOrders(Orders(st.barrage, 0, st.pos), ba.1))
  }

  /** Update: the mode handler, the scale animation and destruction test, then
      the waits that were pending at the start of the frame. */
  function UpdateSpec(st: CircleState, w: World): (r: (CircleState, seq<ShotOrder>))
  {
    var h := HandlerStep(st, w);
    var scaled := h.0.(look := ScaleStep(h.0.look, w.dt));
    HandlerKeepsPendingWaits(st, w);
    var c := CoroutineStep(scaled, |st.waits.expiry|, |st.waits.barrage|, w.dt);
    (c.0, h.1 + c.1)
  }

  /** The mode handler only ever adds waits after the pending ones. */
  lemma HandlerKeepsPendingWaits(st: CircleState, w: World)
    ensures var h := HandlerStep(st, w).0;
            |st.waits.expiry| <= |h.waits.expiry| && |st.waits.barrage| <= |h.waits.barrage| &&
            h.waits.expiry[..|st.waits.expiry|] == st.waits.expiry &&
            h.waits.barrage[..|st.waits.barrage|] == st.waits.barrage
  {
  }

  /** OnTriggerEnter2D: only a circle that is not expiring and may clear bullets
      acts, and only on the opponent's bullet layer; an EnemyBullet is
      deactivated, any other object there goes back to the pool. */
  function ClearOn(st: CircleState, layer: Layer, isEnemyBullet: bool): (r: ClearAction)
    ensures r != Ignore <==> !st.look.isExpiring && st.mode.canClear && layer == st.opponentLayer
    ensures r == DeactivateBullet <==> r != Ignore && isEnemyBullet
  {
    if st.look.isExpiring || !st.mode.canClear then Ignore
    else if layer == st.opponentLayer then
      if isEnemyBullet then DeactivateBullet else ReturnToPool
    else Ignore
  }

  // ---------------------------------------------------------------------
  // Properties of a frame

  /** Exactly one handler runs, in the order periodic, manual, travel: the
      position and the clocks move only as the running mode moves them. */
  lemma UpdateDispatch(st: CircleState, w: World)
    requires !st.look.destroyed
    ensures var r := UpdateSpec(st, w).0;
            (st.mode.periodic ==> r.clock.lifeTimer == st.clock.lifeTimer - w.dt &&
                                  r.mode.manual == st.mode.manual &&
                                  r.look.radius == st.look.radius) &&
            (!st.mode.periodic ==> r.clock == st.clock && r.mode.periodic == st.mode.periodic &&
                                   r.mode.manual == st.mode.manual) &&
            (!st.mode.periodic && st.mode.manual ==>
               r.pos == st.pos.Plus(Vec(st.moveDir as real * st.manualSpeed * w.dt, 0.0)) &&
               r.mode.destination == st.mode.destination) &&
            (!st.mode.periodic && !st.mode.manual && st.mode.destination.Some? ==>
               r.pos == MoveTowardsVec(w.trig, st.pos, st.mode.destination.value, TravelSpeed * w.dt)) &&
            (!st.mode.periodic && !st.mode.manual && st.mode.destination.None? ==>
               r.pos == st.pos && r.mode == st.mode)
  {
  }

  /** When the periodic life runs out the circle leaves the mode, starts to
      shrink away, drops its destination and fires nothing from the handler. */
  lemma PeriodicLifeEnds(st: CircleState, w: World)
    requires !st.look.destroyed && st.mode.periodic
    requires st.clock.lifeTimer - w.dt <= 0.0
    ensures HandlerStep(st, w).1 == []
    ensures var r := UpdateSpec(st, w).0;
            !r.mode.periodic && r.look.isExpiring && r.look.targetScale == 0.0 &&
            r.mode.destination == None && r.pos == st.pos
  {
  }

  /** A moving barrage fires on its first frame: fireTimer starts at zero, so
      the whole barrageData is ordered from the circle's new position. */
  lemma MovingBarrageFiresFirstFrame(st: CircleState, w: World)
    requires st.mode.periodic && st.clock.fireTimer == 0.0 && w.dt >= 0.0
    requires st.clock.lifeTimer - w.dt > 0.0
    requires st.barrage.hasSpawner && st.barrage.shots.Some?
    ensures var (r, orders) := PeriodicStep(st, w);
            |orders| == |st.barrage.shots.value| &&
            (forall i :: 0 <= i < |orders| ==>
               orders[i] == ShotOrder(st.barrage.shots.value[i], 0, st.barrage.skillIndex, r.pos, st.barrage.side)) &&
            r.clock.fireTimer == st.clock.fireInterval
  {
  }

  /** The homing step never overshoots: it lands on the homing point or on
      the segment towards it. */
  lemma HomingNeverOvershoots(trig: Trig, pos: Vec, point: Vec, life: real, dt: real)
    requires life > 0.0 && dt >= 0.0
    requires SqrtAt(trig, point.Minus(pos).SqrMagnitude())
    ensures var r := HomingStep(trig, pos, point, life, dt);
            r == point ||
            exists t: real :: 0.0 <= t < 1.0 && r == pos.Plus(point.Minus(pos).Scale(t))
  {
    var d := Distance(trig, pos, point);
    var m := Max(life, MinLifeDivisor);
    var speed := d / m;
    assert speed >= 0.0 by {
      if d > 0.0 {
        PositiveFactor(speed, m, d);
      }
    }
    var step := speed * dt;
    MulNonneg(speed, dt);
    var r := MoveTowardsVec(trig, pos, point, step);
    assert r == HomingStep(trig, pos, point, life, dt);
    MoveTowardsVecOnSegment(trig, pos, point, step);
    if r != point {
      var t := step / trig.sqrt(point.Minus(pos).SqrMagnitude());
      assert 0.0 <= t < 1.0 && r == pos.Plus(point.Minus(pos).Scale(t));
    }
  }

  /** The homing speed is chosen to arrive on time: once the remaining life
      (at least 0.01) is at most one frame, the step reaches the point. */
  lemma HomingArrivesWhenLifeEnds(trig: Trig, pos: Vec, point: Vec, life: real, dt: real)
    requires MinLifeDivisor <= life <= dt
    requires SqrtAt(trig, point.Minus(pos).SqrMagnitude())
    ensures HomingStep(trig, pos, point, life, dt) == point
  {
    var sq := point.Minus(pos).SqrMagnitude();
    var d := trig.sqrt(sq);
    var step := d / life * dt;
    assert step >= d by {
      var q := d / life;
      assert q * life == d;
      if d > 0.0 {
        PositiveFactor(q, life, d);
        MulNonneg(q, dt - life);
        assert q * dt - q * life == q * (dt - life);
      } else {
        MulNonneg(q, dt);
      }
    }
    SquareMonotone(d, step, d * d, step * step);
  }

  /** Arriving at the destination (within 0.01) activates the circle with
      radius 0.5 for 2 s and schedules the barrage 0.6 s later. */
  lemma TravelArrivalActivates(st: CircleState, w: World)
    requires !st.mode.periodic && !st.mode.manual && st.mode.destination.Some?
    requires var p := MoveTowardsVec(w.trig, st.pos, st.mode.destination.value, TravelSpeed * w.dt);
             Distance(w.trig, p, st.mode.destination.value) < ArrivalDistance
    ensures var h := HandlerStep(st, w);
            h.1 == [] && h.0.mode.destination == None && h.0.look.radius == ArrivalRadius &&
            !h.0.look.isExpiring && h.0.look.targetScale == ArrivalRadius &&
            h.0.waits.expiry == st.waits.expiry + [ArrivalDuration] &&
            h.0.waits.barrage == st.waits.barrage + [BarrageDelay]
  {
  }

  /** The time elapsed over the first n frames of dts. */
  function ElapsedFirst(dts: seq<real>, n: nat): real
    requires n <= |dts|
  {
    if n == 0 then 0.0 else dts[0] + ElapsedFirst(dts[1..], n - 1)
  }

  /** The index of the frame in which a single wait of length d finishes when
      it is advanced by the frame times dts, if it does. */
  function FrameOf(d: real, dts: seq<real>): (r: Option<nat>)
    ensures r.Some? ==> r.value < |dts|
    decreases |dts|
  {
    if dts == [] then None
    else if AdvanceWaits([d], dts[0]).1 == 1 then Some(0)
    else
      var rest := FrameOf(d - dts[0], dts[1..]);
      if rest.Some? then Some(rest.value + 1) else None
  }

  /** One frame of a single wait. */
  lemma SingleWait(d: real, dt: real)
    ensures AdvanceWaits([d], dt) == if d - dt <= 0.0 then ([], 1) else ([d - dt], 0)
  {
    assert [d][..0] == [];
    assert AdvanceWaits([], dt) == ([], 0);
    assert [] + [d - dt] == [d - dt];
  }

  /** The wait's length has not elapsed after any of the first k frames. */
  predicate NotYetElapsed(d: real, dts: seq<real>, k: nat)
    requires k <= |dts|
  {
    forall j :: 1 <= j <= k ==> ElapsedFirst(dts, j) < d
  }

  /** After a first frame that does not finish the wait, the earlier frames
      of the rest are the earlier frames of the whole, shifted by one. */
  lemma EarlierFramesShift(d: real, dts: seq<real>, k: nat)
    requires 0 < k < |dts| && dts[0] < d
    ensures NotYetElapsed(d, dts, k) <==> NotYetElapsed(d - dts[0], dts[1..], k - 1)
  {
    var rest := dts[1..];
    if NotYetElapsed(d - dts[0], rest, k - 1) {
      forall j | 1 <= j <= k
        ensures ElapsedFirst(dts, j) < d
      {
        assert ElapsedFirst(dts, j) == dts[0] + ElapsedFirst(rest, j - 1);
        if j > 1 {
          assert ElapsedFirst(rest, j - 1) < d - dts[0];
        }
      }
    }
    if NotYetElapsed(d, dts, k) {
      forall j | 1 <= j <= k - 1
        ensures ElapsedFirst(rest, j) < d - dts[0]
      {
        var j1 := j + 1;
        assert ElapsedFirst(dts, j1) == dts[0] + ElapsedFirst(rest, j);
        assert ElapsedFirst(dts, j1) < d;
      }
    }
  }

  /** A wait finishes in exactly the first frame by which its length has
      elapsed. */
  lemma {:induction false} WaitFinishesWhenElapsed(d: real, dts: seq<real>, k: nat)
    requires k < |dts|
    ensures FrameOf(d, dts) == Some(k) <==>
            ElapsedFirst(dts, k + 1) >= d && NotYetElapsed(d, dts, k)
    decreases k
  {
    SingleWait(d, dts[0]);
    assert ElapsedFirst(dts, 1) == dts[0];
    if k > 0 {
      WaitFinishesWhenElapsed(d - dts[0], dts[1..], k - 1);
      assert ElapsedFirst(dts, k + 1) == dts[0] + ElapsedFirst(dts[1..], k);
      if d - dts[0] > 0.0 {
        EarlierFramesShift(d, dts, k);
      } else {
        assert !NotYetElapsed(d, dts, k);
      }
    }
  }

  // ---------------------------------------------------------------------
  // The component

  class MagicCircle {
    var pos: Vec
    var mode: Mode
    var barrage: Barrage
    var clock: Clock
    var waits: Waits
    var look: Look
    var moveDir: int
    var manualSpeed: real
    var team: TeamSide
    var opponentLayer: Layer

    function State(): CircleState
      reads this
    {
      CircleState(pos, mode, barrage, clock, waits, look, moveDir, manualSpeed, team, opponentLayer)
    }

    /** Instantiate at a position, then Initialize(color, team): the scale is
        zero and the opponent's bullet layer is the other team's. */
    constructor (at: Vec, team: TeamSide)
      ensures pos == at && this.team == team && opponentLayer == BulletLayer(Opponent(team))
      ensures look == Look(0.0, 0.0, false, 0.0, false)
      ensures mode == Mode(false, false, None, true)
      ensures waits == Waits([], []) && moveDir == 1 && manualSpeed == ManualSpeed
      ensures barrage.shots == None && !barrage.hasSpawner
    {
      pos := at;
      mode := Mode(false, false, None, true);
      barrage := Barrage(None, false, team, 0);
      clock := Clock(0.0, 0.0, 0.0, 0.0, 0.0);
      waits := Waits([], []);
      look := Look(0.0, 0.0, false, 0.0, false);
      moveDir := 1;
      manualSpeed := ManualSpeed;
      this.team := team;
      opponentLayer := BulletLayer(Opponent(team));
    }

    /** Fire periodically while homing for `duration` seconds, at scale 0.8,
        without clearing bullets; the first frame fires (fireTimer is 0). */
    method LaunchMovingBarrage(dest: Vec, data: seq<ShotData>, hasSpawner: bool, side: TeamSide,
                               skillIndex: int, speed: real, interval: real, duration: real)
      modifies this
      ensures mode == old(mode).(destination := Some(dest), periodic := true, canClear := false)
      ensures barrage == Barrage(Some(data), hasSpawner, side, skillIndex)
      ensures clock == Clock(speed, duration, interval, 0.0, duration)
      ensures look == old(look).(targetScale := MovingBarrageScale)
      ensures pos == old(pos) && waits == old(waits)
      ensures team == old(team) && opponentLayer == old(opponentLayer)
      ensures moveDir == old(moveDir) && manualSpeed == old(manualSpeed)
    {
      mode := mode.(destination := Some(dest));
      barrage := Barrage(Some(data), hasSpawner, side, skillIndex);
      clock := Clock(speed, duration, interval, 0.0, duration);
      mode := mode.(periodic := true);
      SetTargetScale(MovingBarrageScale);
      SetBulletClearing(false);
    }

    /** Travel to `dest`, then burst once; scale 0.5, no clearing. The skill
        index is left as it was. */
    method LaunchToTarget(dest: Vec, data: seq<ShotData>, hasSpawner: bool, side: TeamSide)
      modifies this
      ensures mode == old(mode).(destination := Some(dest), periodic := false, canClear := false)
      ensures barrage == old(barrage).(shots := Some(data), hasSpawner := hasSpawner, side := side)
      ensures look == old(look).(targetScale := TravelScale)
      ensures pos == old(pos) && waits == old(waits) && clock == old(clock)
      ensures team == old(team) && opponentLayer == old(opponentLayer)
      ensures moveDir == old(moveDir) && manualSpeed == old(manualSpeed)
    {
      mode := mode.(destination := Some(dest));
      barrage := barrage.(shots := Some(data), hasSpawner := hasSpawner, side := side);
      mode := mode.(periodic := false);
      SetTargetScale(TravelScale);
      SetBulletClearing(false);
    }

    /** Move sideways at 5 units/s as a shield that clears bullets. */
    method StartManualMove(direction: int, initialScale: real)
      modifies this
      ensures mode == old(mode).(manual := true, canClear := true)
      ensures moveDir == direction && manualSpeed == ManualSpeed
      ensures look == old(look).(targetScale := initialScale)
      ensures pos == old(pos) && waits == old(waits) && clock == old(clock) && barrage == old(barrage)
      ensures team == old(team) && opponentLayer == old(opponentLayer)
    {
      mode := mode.(manual := true);
      moveDir := direction;
      manualSpeed := ManualSpeed;
      SetTargetScale(initialScale);
      SetBulletClearing(true);
    }

    method SetBulletClearing(enable: bool)
      modifies this
      ensures mode == old(mode).(canClear := enable)
      ensures pos == old(pos) && look == old(look) && waits == old(waits) && clock == old(clock)
      ensures barrage == old(barrage) && moveDir == old(moveDir) && manualSpeed == old(manualSpeed)
      ensures team == old(team) && opponentLayer == old(opponentLayer)
    {
      mode := mode.(canClear := enable);
    }

    method SetTargetScale(radius: real)
      modifies this
      ensures look == old(look).(targetScale := radius)
      ensures pos == old(pos) && mode == old(mode) && waits == old(waits) && clock == old(clock)
      ensures barrage == old(barrage) && moveDir == old(moveDir) && manualSpeed == old(manualSpeed)
      ensures team == old(team) && opponentLayer == old(opponentLayer)
    {
      look := look.(targetScale := radius);
    }

    method Activate(radius: real, duration: real)
      modifies this
      ensures State() == ActivateSpec(old(State()), radius, duration)
    {
      look := look.(radius := radius, isExpiring := false);
      SetTargetScale(radius);
      waits := waits.(expiry := waits.expiry + [duration]);
    }

    /** Stop a manual move where the circle stands and activate it there. */
    method DeployAtCurrentPosition(radius: real, duration: real)
      modifies this
      ensures State() == ActivateSpec(old(State()).(mode := old(mode).(manual := false)), radius, duration)
    {
      mode := mode.(manual := false);
      Activate(radius, duration);
    }

    /** One frame; the shot orders are the ExecuteShot calls made on the
        owning spawner, in order. */
    method Update(w: World) returns (orders: seq<ShotOrder>)
      requires !look.destroyed
      modifies this
      ensures (State(), orders) == UpdateSpec(old(State()), w)
    {
      ghost var st0 := State();
      var nEx := |waits.expiry|;
      var nBa := |waits.barrage|;
      // the mode handler
      var handled: seq<ShotOrder> := [];
      if mode.periodic {
        handled := HandlePeriodicFiringMode(w);
      } else if mode.manual {
        pos := pos.Plus(Vec(moveDir as real * manualSpeed * w.dt, 0.0));
      } else if mode.destination.Some? {
        HandleNormalRemoteMode(w);
      }
      ghost var h := HandlerStep(st0, w);
      assert State() == h.0 && handled == h.1;
      HandlerKeepsPendingWaits(st0, w);
      // the scale animation and the destruction test
      look := ScaleStep(look, w.dt);
      // the coroutines that were waiting when the frame began
      ghost var scaled := State();
      var fired := AdvancePending(nEx, nBa, w.dt);
      orders := handled + fired;
      assert (State(), fired) == CoroutineStep(scaled, nEx, nBa, w.dt);
    }

    method HandlePeriodicFiringMode(w: World) returns (orders: seq<ShotOrder>)
      modifies this
      ensures (State(), orders) == PeriodicStep(old(State()), w)
    {
      clock := clock.(lifeTimer := clock.lifeTimer - w.dt);
      if clock.lifeTimer <= 0.0 {
        mode := mode.(periodic := false, destination := None);
        look := look.(isExpiring := true, targetScale := 0.0);
        return [];
      }
      if barrage.hasSpawner && w.target.Some? {
        pos := HomingStep(w.trig, pos, HomingPoint(w.owner, w.target.value), clock.lifeTimer, w.dt);
      }
      clock := clock.(fireTimer := clock.fireTimer - w.dt);
      orders := [];
      if clock.fireTimer <= 0.0 {
        clock := clock.(fireTimer := clock.fireInterval);
        orders := Orders(barrage, barrage.skillIndex, pos);
      }
    }

    method HandleNormalRemoteMode(w: World)
      requires mode.destination.Some?
      modifies this
      ensures State() == TravelStep(old(State()), w)
    {
      var dest := mode.destination.value;
      pos := MoveTowardsVec(w.trig, pos, dest, TravelSpeed * w.dt);
      if Distance(w.trig, pos, dest) < ArrivalDistance {
        mode := mode.(destination := None);
        Activate(ArrivalRadius, ArrivalDuration);
        waits := waits.(barrage := waits.barrage + [BarrageDelay]);
      }
    }

    /** Resume the first nEx expiry waits and nBa barrage waits. */
    method AdvancePending(nEx: nat, nBa: nat, dt: real) returns (orders: seq<ShotOrder>)
      requires nEx <= |waits.expiry| && nBa <= |waits.barrage|
      modifies this
      ensures (State(), orders) == CoroutineStep(old(State()), nEx, nBa, dt)
    {
      var exKept, exDone := AdvanceList(waits.expiry[..nEx], dt);
      var baKept, baDone := AdvanceList(waits.barrage[..nBa], dt);
      var burst := Orders(barrage, 0, pos);
      orders := [];
      var i := 0;
      while i < baDone
        invariant 0 <= i <= baDone
        invariant orders == RepeatOrders(burst, i)
      {
        orders := orders + burst;
        i := i + 1;
      }
      waits := Waits(exKept + waits.expiry[nEx..], baKept + waits.barrage[nBa..]);
      if exDone + baDone > 0 {
        look := look.(isExpiring := true, targetScale := 0.0);
      }
    }

    /** Take dt off every wait; count those that finish. */
    static method AdvanceList(ts: seq<real>, dt: real) returns (kept: seq<real>, done: nat)
      ensures (kept, done) == AdvanceWaits(ts, dt)
    {
      kept, done := [], 0;
      var i := 0;
      while i < |ts|
        invariant 0 <= i <= |ts|
        invariant (kept, done) == AdvanceWaits(ts[..i], dt)
      {
        assert ts[..i + 1][..i] == ts[..i];
        var t := ts[i] - dt;
        if t <= 0.0 {
          done := done + 1;
        } else {
          kept := kept + [t];
        }
        i := i + 1;
      }
      assert ts[..i] == ts;
    }

    /** OnTriggerEnter2D, returning what is done to the other object. */
    method OnTriggerEnter2D(layer: Layer, isEnemyBullet: bool) returns (action: ClearAction)
      ensures action == ClearOn(State(), layer, isEnemyBullet)
      ensures action != Ignore ==> !look.isExpiring && mode.canClear
    {
      if look.isExpiring || !mode.canClear {
        return Ignore;
      }
      if layer == opponentLayer {
        action := if isEnemyBullet then DeactivateBullet else ReturnToPool;
      } else {
        action := Ignore;
      }
    }
  }
}
