/** The bullet layouts of BulletSpawner: ShootSingle, ShootExpandingNWay,
    ShootAllDirections and ShootRandomGapShot, with CalculateAngle and
    GetOffsetPosition. A shot produces the spawn requests it hands to
    SpawnFromPool, in order, and the position of the random tape after it. */
module Patterns {
  import opened Common
  import opened BulletConfig

  /** The arguments of one SpawnFromPool call. */
  datatype SpawnRequest = SpawnRequest(
    bullet: BulletData,
    pos: Vec,
    angle: real,
    speedData: SpanData,
    angleAccData: SpanData,
    delayFrames: int,
    speed: real,
    team: TeamSide)

  /** What a shot reads besides its ShotData: the engine's math, the spawner's
      target (None when no opponent was found) and the random tape. */
  datatype ShotEnv = ShotEnv(trig: Trig, target: Option<Vec>, tape: Tape)

  /** The requests of one shot, in spawn order, and the next tape position. */
  datatype Shot = Shot(reqs: seq<SpawnRequest>, cursor: nat)

  /** One ExecuteShot call: the shot, the bullet it fires, where from, for whom. */
  datatype ShotCall = ShotCall(data: ShotData, bullet: BulletData, origin: Vec, team: TeamSide)

  /** A row of evenly spaced angles: count bullets at start, start + step, ... */
  datatype Layout = Layout(count: int, start: real, step: real)

  function RowAngle(row: Layout, i: int): real
  {
    row.start + row.step * i as real
  }

  /** BulletSpawner.CalculateAngle: the base angle of a shot and the tape
      position after it (a Random angle costs one draw). */
  function CalculateAngle(env: ShotEnv, data: ShotData, origin: Vec, cur: nat): (r: (real, nat))
    ensures data.angleType == RandomAngle ==> r.1 == cur + 1 && 1.0 <= r.0 <= 360.0
    ensures data.angleType != RandomAngle ==> r.1 == cur
    ensures data.angleType == Fixed ==> r.0 == data.fixedAngle
    ensures data.angleType == AimAtPlayer && env.target.None? ==> r.0 == data.fixedAngle
    ensures data.angleType == AimAtPlayer && env.target.Some? ==>
              r.0 == env.trig.atan2Deg(env.target.value.y - origin.y, env.target.value.x - origin.x)
  {
    match data.angleType
    case AimAtPlayer =>
      if env.target.Some? then
        var dir := env.target.value.Minus(origin);
        (env.trig.atan2Deg(dir.y, dir.x), cur)
      else (data.fixedAngle, cur)
    case RandomAngle => (RangeDraw(1.0, 360.0, env.tape(cur)), cur + 1)
    case Fixed => (data.fixedAngle, cur)
  }

  /** BulletSpawner.GetOffsetPosition: radius units from origin along angle. */
  function OffsetPosition(trig: Trig, angle: real, radius: real, origin: Vec): Vec
  {
    origin.Plus(Vec(trig.cosDeg(angle), trig.sinDeg(angle)).Scale(radius))
  }

  /** The base speed of speed layer s: with several layers, Mathf.Lerp from
      speedData.default_ to speedMax at s / (speedCount - 1). */
  function TierSpeed(data: ShotData, s: int): (r: real)
    ensures data.speedCount <= 1 ==> r == data.speedData.default_
    ensures data.speedCount > 1 && s <= 0 ==> r == data.speedData.default_
    ensures data.speedCount > 1 && s >= data.speedCount - 1 ==> r == data.speedMax
    ensures data.speedData.default_ <= data.speedMax ==> data.speedData.default_ <= r <= data.speedMax
    ensures data.speedMax <= data.speedData.default_ ==> data.speedMax <= r <= data.speedData.default_
  {
    if data.speedCount > 1 then
      Lerp(data.speedData.default_, data.speedMax, s as real / (data.speedCount - 1) as real)
    else data.speedData.default_
  }

  /** The number of iterations of a loop `for (k = 0; k < n; k++)`. */
  function Iterations(n: int): nat
  {
    if n > 0 then n else 0
  }

  /** One bullet of a grid: the angle jitter is drawn first, then the speed
      jitter, as the source calls Random.Range. */
  function GridBullet(env: ShotEnv, call: ShotCall, angle0: real, speed0: real, cur: nat): SpawnRequest
  {
    var data := call.data;
    var angle := angle0 + RangeDraw(-data.launchAngleJitter, data.launchAngleJitter, env.tape(cur));
    var speed := speed0 + RangeDraw(-data.launchSpeedJitter, data.launchSpeedJitter, env.tape(cur + 1));
    SpawnRequest(call.bullet, OffsetPosition(env.trig, angle, data.spawnRadius, call.origin), angle,
                 data.speedData, data.angleAccData, data.launchDelay, speed, call.team)
  }

  /** The inner loop of speed layer s, starting at tape position cur. */
  function GridRow(env: ShotEnv, call: ShotCall, row: Layout, s: nat, cur: nat): (r: seq<SpawnRequest>)
    ensures |r| == Iterations(row.count)
    ensures forall q :: q in r ==> q.team == call.team && q.bullet == call.bullet
  {
    seq(Iterations(row.count), i requires 0 <= i < Iterations(row.count) =>
          GridBullet(env, call, RowAngle(row, i), TierSpeed(call.data, s), cur + 2 * i))
  }

  /** The first n speed layers of a grid shot, starting at tape position cur. */
  function GridTiers(env: ShotEnv, call: ShotCall, row: Layout, n: nat, cur: nat): (r: seq<SpawnRequest>)
    ensures |r| == n * Iterations(row.count)
    ensures forall q :: q in r ==> q.team == call.team && q.bullet == call.bullet
  {
    if n == 0 then []
    else
      var prefix := GridTiers(env, call, row, n - 1, cur);
      prefix + GridRow(env, call, row, n - 1, cur + 2 * |prefix|)
  }

  /** A grid shot: speedCount layers of one row each; two draws per bullet. */
  function GridShot(env: ShotEnv, call: ShotCall, row: Layout, cur: nat): (r: Shot)
    ensures |r.reqs| == Iterations(call.data.speedCount) * Iterations(row.count)
    ensures r.cursor == cur + 2 * |r.reqs|
    ensures forall q :: q in r.reqs ==> q.team == call.team && q.bullet == call.bullet
  {
    var reqs := GridTiers(env, call, row, Iterations(call.data.speedCount), cur);
    Shot(reqs, cur + 2 * |reqs|)
  }

  lemma MulSucc(a: nat, c: nat)
    ensures (a + 1) * c == a * c + c
  {
  }

  /** The nested loops of ShootSingle / ShootExpandingNWay / ShootAllDirections. */
  method ShootGrid(env: ShotEnv, call: ShotCall, row: Layout, cur0: nat) returns (reqs: seq<SpawnRequest>, cur: nat)
    ensures Shot(reqs, cur) == GridShot(env, call, row, cur0)
  {
    var data := call.data;
    var tiers := Iterations(data.speedCount);
    var count := Iterations(row.count);
    reqs := [];
    cur := cur0;
    var s := 0;
    while s < tiers
      invariant 0 <= s <= tiers
      invariant reqs == GridTiers(env, call, row, s, cur0)
      invariant cur == cur0 + 2 * |reqs|
    {
      var baseSpeed := TierSpeed(data, s);
      ghost var done := reqs;
      var i := 0;
      while i < count
        invariant 0 <= i <= count
        invariant reqs == done + GridRow(env, call, row, s, cur0 + 2 * |done|)[..i]
        invariant cur == cur0 + 2 * |reqs|
      {
        ghost var row_s := GridRow(env, call, row, s, cur0 + 2 * |done|);
        var req := GridBullet(env, call, RowAngle(row, i), baseSpeed, cur);
        assert row_s[..i + 1] == row_s[..i] + [req];
        reqs := reqs + [req];
        cur := cur + 2;
        i := i + 1;
      }
      assert reqs == GridTiers(env, call, row, s + 1, cur0);
      s := s + 1;
    }
  }

  /** Bullet k of a grid lies in speed layer s = k / count at row position
      i = k % count, drawn from tape positions cur + 2k and cur + 2k + 1. */
  lemma {:induction false} GridTiersAt(env: ShotEnv, call: ShotCall, row: Layout, n: nat, cur: nat, s: nat, i: nat)
    requires s < n && i < Iterations(row.count)
    ensures var k := s * Iterations(row.count) + i;
            k < |GridTiers(env, call, row, n, cur)| &&
            GridTiers(env, call, row, n, cur)[k] ==
              GridBullet(env, call, RowAngle(row, i), TierSpeed(call.data, s), cur + 2 * k)
  {
    var c := Iterations(row.count);
    MulSucc(s, c);
    if s < n - 1 {
      GridTiersAt(env, call, row, n - 1, cur, s, i);
      MulSucc(n - 1, c);
      assert s * c + i < (n - 1) * c by {
        MulSucc(s, c);
        MulMonotone(s + 1, n - 1, c);
      }
    } else {
      assert |GridTiers(env, call, row, n - 1, cur)| == s * c;
    }
  }

  /** In a grid shot, bullet i of speed layer s flies within launchAngleJitter
      of its row angle and within launchSpeedJitter of its layer's speed. */
  lemma GridShotBullet(env: ShotEnv, call: ShotCall, row: Layout, cur: nat, s: nat, i: nat)
    requires s < Iterations(call.data.speedCount) && i < Iterations(row.count)
    ensures var r := GridShot(env, call, row, cur);
            var k := s * Iterations(row.count) + i;
            k < |r.reqs| &&
            Abs(r.reqs[k].angle - RowAngle(row, i)) <= Abs(call.data.launchAngleJitter) &&
            Abs(r.reqs[k].speed - TierSpeed(call.data, s)) <= Abs(call.data.launchSpeedJitter) &&
            (call.data.launchAngleJitter == 0.0 ==> r.reqs[k].angle == RowAngle(row, i))
  {
    var k := s * Iterations(row.count) + i;
    GridTiersAt(env, call, row, Iterations(call.data.speedCount), cur, s, i);
    JitterBound(call.data.launchAngleJitter, env.tape(cur + 2 * k));
    JitterBound(call.data.launchSpeedJitter, env.tape(cur + 2 * k + 1));
  }

  lemma MulMonotone(a: nat, b: nat, c: nat)
    requires a <= b
    ensures a * c <= b * c
  {
  }

  /** The layout of ShootSingle: one bullet per speed layer at the base angle. */
  function SingleLayout(base: real): Layout
  {
    Layout(1, base, 0.0)
  }

  /** The bullet count of an N-way shot at burst step `step`. */
  function NWayCount(data: ShotData, step: int): int
  {
    data.nWayCount + (if data.nWayExpand.Some? then data.nWayExpand.value.countAdd * step else 0)
  }

  /** The spread of an N-way shot at burst step `step` from fan angle `fan`. */
  function NWaySpread(data: ShotData, step: int, fan: real): real
  {
    fan + (if data.nWayExpand.Some? then data.nWayExpand.value.spreadAdd * step as real else 0.0)
  }

  /** The layout of ShootExpandingNWay: the base angle turns by rotationPerStep
      per burst step and the bullets spread from base - spread/2. */
  function NWayLayout(data: ShotData, step: int, fan: real, aimed: real): Layout
  {
    var count := NWayCount(data, step);
    var spread := NWaySpread(data, step, fan);
    var base := aimed + data.rotationPerStep * step as real;
    Layout(count, base - spread / 2.0, if count > 1 then spread / (count - 1) as real else 0.0)
  }

  /** An N-way row with several bullets runs from base - spread/2 to
      base + spread/2 in equal steps, and is symmetric about the base angle. */
  lemma NWayRowSpansSpread(data: ShotData, step: int, fan: real, aimed: real, i: int)
    requires NWayCount(data, step) > 1 && 0 <= i < NWayCount(data, step)
    ensures var row := NWayLayout(data, step, fan, aimed);
            var base := aimed + data.rotationPerStep * step as real;
            var spread := NWaySpread(data, step, fan);
            RowAngle(row, 0) == base - spread / 2.0 &&
            RowAngle(row, NWayCount(data, step) - 1) == base + spread / 2.0 &&
            RowAngle(row, i) + RowAngle(row, NWayCount(data, step) - 1 - i) == 2.0 * base &&
            RowAngle(row, i + 1) - RowAngle(row, i) == spread / (NWayCount(data, step) - 1) as real
  {
    var row := NWayLayout(data, step, fan, aimed);
    var n := NWayCount(data, step);
    var spread := NWaySpread(data, step, fan);
    var d := spread / (n - 1) as real;
    assert d * (n - 1) as real == spread;
    assert d * i as real + d * (n - 1 - i) as real == d * (n - 1) as real;
    assert d * (i + 1) as real == d * i as real + d;
  }

  /** The quirk of a single-bullet N-way shot: it is not centred on the base
      angle but fired at base - spread/2. */
  lemma NWaySingleBulletIsOffCentre(data: ShotData, step: int, fan: real, aimed: real)
    requires NWayCount(data, step) == 1
    ensures var row := NWayLayout(data, step, fan, aimed);
            RowAngle(row, 0) == aimed + data.rotationPerStep * step as real - NWaySpread(data, step, fan) / 2.0
  {
  }

  /** The layout of ShootAllDirections: roundCount bullets 360/roundCount
      apart, shifted by half a step for an even count when useEvenOffset is set. */
  function AllDirectionsLayout(data: ShotData, step: int, aimed: real): Layout
  {
    var base := aimed + data.rotationPerStep * step as real;
    var stepAngle := if data.roundCount > 0 then 360.0 / data.roundCount as real else 0.0;
    var evenOffset := if data.useEvenOffset && data.roundCount % 2 == 0 then stepAngle / 2.0 else 0.0;
    Layout(data.roundCount, base + evenOffset, stepAngle)
  }

  /** ShootSingle */
  function SingleShot(env: ShotEnv, call: ShotCall, cur: nat): (r: Shot)
    ensures |r.reqs| == Iterations(call.data.speedCount)
    ensures forall q :: q in r.reqs ==> q.team == call.team && q.bullet == call.bullet
  {
    var (aimed, c1) := CalculateAngle(env, call.data, call.origin, cur);
    GridShot(env, call, SingleLayout(aimed), c1)
  }

  /** ShootExpandingNWay */
  function NWayShot(env: ShotEnv, call: ShotCall, step: int, fan: real, cur: nat): (r: Shot)
    ensures |r.reqs| == Iterations(call.data.speedCount) * Iterations(NWayCount(call.data, step))
    ensures forall q :: q in r.reqs ==> q.team == call.team && q.bullet == call.bullet
  {
    var (aimed, c1) := CalculateAngle(env, call.data, call.origin, cur);
    GridShot(env, call, NWayLayout(call.data, step, fan, aimed), c1)
  }

  /** ShootAllDirections */
  function AllDirectionsShot(env: ShotEnv, call: ShotCall, step: int, cur: nat): (r: Shot)
    ensures |r.reqs| == Iterations(call.data.speedCount) * Iterations(call.data.roundCount)
    ensures forall q :: q in r.reqs ==> q.team == call.team && q.bullet == call.bullet
  {
    var (aimed, c1) := CalculateAngle(env, call.data, call.origin, cur);
    GridShot(env, call, AllDirectionsLayout(call.data, step, aimed), c1)
  }

  /** The all-directions row: neighbours are 360/roundCount apart, the row
      closes the full circle, and the first bullet sits half a step past the
      base angle exactly when useEvenOffset is set and roundCount is even. */
  lemma AllDirectionsSpacing(data: ShotData, step: int, aimed: real, i: int)
    requires data.roundCount > 0
    ensures var row := AllDirectionsLayout(data, step, aimed);
            var stepAngle := 360.0 / data.roundCount as real;
            var base := aimed + data.rotationPerStep * step as real;
            RowAngle(row, i + 1) - RowAngle(row, i) == stepAngle &&
            RowAngle(row, data.roundCount) - RowAngle(row, 0) == 360.0 &&
            (data.useEvenOffset && data.roundCount % 2 == 0 ==> RowAngle(row, 0) == base + stepAngle / 2.0) &&
            (!(data.useEvenOffset && data.roundCount % 2 == 0) ==> RowAngle(row, 0) == base)
  {
    var stepAngle := 360.0 / data.roundCount as real;
    assert stepAngle * data.roundCount as real == 360.0;
    assert stepAngle * (i + 1) as real == stepAngle * i as real + stepAngle;
  }

  /** Whether a random-gap draw falls in the dead zone around the target. */
  predicate InGap(data: ShotData, randomAngle: real, targetAngle: real)
  {
    Abs(DeltaAngle(randomAngle, targetAngle)) < data.gapWidth / 2.0
  }

  /** The loops of ShootRandomGapShot from speed layer s, inner index i, at tape
      position cur: each attempt draws an angle in [0,360]; an angle in the dead
      zone is dropped (no retry), any other gets the two jitter draws. */
  function GapFrom(env: ShotEnv, call: ShotCall, targetAngle: real, s: nat, i: nat, cur: nat): (r: Shot)
    ensures forall q :: q in r.reqs ==> q.team == call.team && q.bullet == call.bullet
    decreases Iterations(call.data.speedCount) - s, Iterations(call.data.roundCount) - i
  {
    var tiers := Iterations(call.data.speedCount);
    var count := Iterations(call.data.roundCount);
    if s >= tiers then Shot([], cur)
    else if i >= count then GapFrom(env, call, targetAngle, s + 1, 0, cur)
    else
      var randomAngle := RangeDraw(0.0, 360.0, env.tape(cur));
      if InGap(call.data, randomAngle, targetAngle) then
        GapFrom(env, call, targetAngle, s, i + 1, cur + 1)
      else
        var req := GridBullet(env, call, randomAngle, TierSpeed(call.data, s), cur + 1);
        var rest := GapFrom(env, call, targetAngle, s, i + 1, cur + 3);
        Shot([req] + rest.reqs, rest.cursor)
  }

  /** ShootRandomGapShot; the target angle is not turned by rotationPerStep. */
  function RandomGapShot(env: ShotEnv, call: ShotCall, cur: nat): (r: Shot)
    ensures forall q :: q in r.reqs ==> q.team == call.team && q.bullet == call.bullet
  {
    var (targetAngle, c1) := CalculateAngle(env, call.data, call.origin, cur);
    GapFrom(env, call, targetAngle, 0, 0, c1)
  }

  /** The loops of ShootRandomGapShot have emitted `done` and stand at (s, i, cur). */
  ghost predicate GapProgress(env: ShotEnv, call: ShotCall, targetAngle: real, s: nat, i: nat, cur: nat,
                              done: seq<SpawnRequest>, goal: Shot)
  {
    var rest := GapFrom(env, call, targetAngle, s, i, cur);
    Shot(done + rest.reqs, rest.cursor) == goal
  }

  /** One attempt of the inner loop keeps GapProgress. */
  lemma GapAttempt(env: ShotEnv, call: ShotCall, targetAngle: real, s: nat, i: nat, cur: nat,
                   done: seq<SpawnRequest>, goal: Shot)
    requires s < Iterations(call.data.speedCount) && i < Iterations(call.data.roundCount)
    requires GapProgress(env, call, targetAngle, s, i, cur, done, goal)
    ensures var randomAngle := RangeDraw(0.0, 360.0, env.tape(cur));
            if InGap(call.data, randomAngle, targetAngle) then
              GapProgress(env, call, targetAngle, s, i + 1, cur + 1, done, goal)
            else
              GapProgress(env, call, targetAngle, s, i + 1, cur + 3,
                          done + [GridBullet(env, call, randomAngle, TierSpeed(call.data, s), cur + 1)], goal)
  {
    var randomAngle := RangeDraw(0.0, 360.0, env.tape(cur));
    if !InGap(call.data, randomAngle, targetAngle) {
      var req := GridBullet(env, call, randomAngle, TierSpeed(call.data, s), cur + 1);
      var rest := GapFrom(env, call, targetAngle, s, i + 1, cur + 3);
      assert done + ([req] + rest.reqs) == (done + [req]) + rest.reqs;
    }
  }

  /** The nested loops of ShootRandomGapShot. */
  method ShootRandomGap(env: ShotEnv, call: ShotCall, cur0: nat) returns (reqs: seq<SpawnRequest>, cur: nat)
    ensures Shot(reqs, cur) == RandomGapShot(env, call, cur0)
  {
    var data := call.data;
    var aimed := CalculateAngle(env, data, call.origin, cur0);
    var targetAngle := aimed.0;
    var tiers := Iterations(data.speedCount);
    var count := Iterations(data.roundCount);
    ghost var goal := RandomGapShot(env, call, cur0);
    reqs := [];
    cur := aimed.1;
    var s := 0;
    while s < tiers
      invariant 0 <= s <= tiers
      invariant GapProgress(env, call, targetAngle, s, 0, cur, reqs, goal)
    {
      var baseSpeed := TierSpeed(data, s);
      var i := 0;
      while i < count
        invariant 0 <= i <= count
        invariant GapProgress(env, call, targetAngle, s, i, cur, reqs, goal)
      {
        GapAttempt(env, call, targetAngle, s, i, cur, reqs, goal);
        var randomAngle := RangeDraw(0.0, 360.0, env.tape(cur));
        cur := cur + 1;
        if !InGap(data, randomAngle, targetAngle) {
          reqs := reqs + [GridBullet(env, call, randomAngle, baseSpeed, cur)];
          cur := cur + 2;
        }
        i := i + 1;
      }
      s := s + 1;
    }
    assert reqs + [] == reqs;
  }

  /** The attempts ShootRandomGapShot still has to make from (s, i). */
  function GapAttemptsLeft(data: ShotData, s: nat, i: nat): nat
  {
    var tiers := Iterations(data.speedCount);
    var count := Iterations(data.roundCount);
    if s >= tiers then 0
    else if i >= count then (tiers - s - 1) * count
    else (tiers - s - 1) * count + (count - i)
  }

  /** Dropped draws are not retried: every attempt costs one draw, every fired
      bullet two more, so at most one bullet per attempt comes out; and with no
      dead zone (gapWidth <= 0) every attempt fires. */
  lemma {:induction false} GapFromCounts(env: ShotEnv, call: ShotCall, targetAngle: real, s: nat, i: nat, cur: nat)
    ensures var r := GapFrom(env, call, targetAngle, s, i, cur);
            var n := GapAttemptsLeft(call.data, s, i);
            |r.reqs| <= n &&
            r.cursor == cur + n + 2 * |r.reqs| &&
            (call.data.gapWidth <= 0.0 ==> |r.reqs| == n)
    decreases Iterations(call.data.speedCount) - s, Iterations(call.data.roundCount) - i
  {
    var tiers := Iterations(call.data.speedCount);
    var count := Iterations(call.data.roundCount);
    if s >= tiers {
    } else if i >= count {
      GapFromCounts(env, call, targetAngle, s + 1, 0, cur);
      if s + 1 < tiers {
        MulSucc(tiers - s - 2, count);
      }
    } else {
      var randomAngle := RangeDraw(0.0, 360.0, env.tape(cur));
      if InGap(call.data, randomAngle, targetAngle) {
        GapFromCounts(env, call, targetAngle, s, i + 1, cur + 1);
      } else {
        GapFromCounts(env, call, targetAngle, s, i + 1, cur + 3);
      }
    }
  }

  /** Without angle jitter, no random-gap bullet flies within gapWidth/2 of the
      target angle, and every one lies in [0, 360]. */
  lemma {:induction false} GapFromAvoidsTarget(env: ShotEnv, call: ShotCall, targetAngle: real, s: nat, i: nat, cur: nat)
    requires call.data.launchAngleJitter == 0.0
    ensures forall q :: q in GapFrom(env, call, targetAngle, s, i, cur).reqs ==>
              !InGap(call.data, q.angle, targetAngle) && 0.0 <= q.angle <= 360.0
    decreases Iterations(call.data.speedCount) - s, Iterations(call.data.roundCount) - i
  {
    var tiers := Iterations(call.data.speedCount);
    var count := Iterations(call.data.roundCount);
    if s >= tiers {
    } else if i >= count {
      GapFromAvoidsTarget(env, call, targetAngle, s + 1, 0, cur);
    } else {
      var randomAngle := RangeDraw(0.0, 360.0, env.tape(cur));
      if InGap(call.data, randomAngle, targetAngle) {
        GapFromAvoidsTarget(env, call, targetAngle, s, i + 1, cur + 1);
      } else {
        GapFromAvoidsTarget(env, call, targetAngle, s, i + 1, cur + 3);
        assert RangeDraw(-0.0, 0.0, env.tape(cur + 1)) == 0.0;
      }
    }
  }

  /** A whole random-gap shot: speedCount x roundCount attempts, at most one
      bullet each, none in the dead zone when there is no angle jitter. */
  lemma RandomGapShotProperties(env: ShotEnv, call: ShotCall, cur: nat)
    ensures var r := RandomGapShot(env, call, cur);
            var n := Iterations(call.data.speedCount) * Iterations(call.data.roundCount);
            var c1 := CalculateAngle(env, call.data, call.origin, cur).1;
            |r.reqs| <= n && r.cursor == c1 + n + 2 * |r.reqs| &&
            (call.data.gapWidth <= 0.0 ==> |r.reqs| == n) &&
            (call.data.launchAngleJitter == 0.0 ==>
               forall q :: q in r.reqs ==>
                 !InGap(call.data, q.angle, CalculateAngle(env, call.data, call.origin, cur).0))
  {
    var (targetAngle, c1) := CalculateAngle(env, call.data, call.origin, cur);
    GapFromCounts(env, call, targetAngle, 0, 0, c1);
    var tiers := Iterations(call.data.speedCount);
    var count := Iterations(call.data.roundCount);
    if tiers > 0 {
      if count > 0 {
        MulSucc(tiers - 1, count);
      }
    }
    if call.data.launchAngleJitter == 0.0 {
      GapFromAvoidsTarget(env, call, targetAngle, 0, 0, c1);
    }
  }

  /** BulletSpawner.ExecuteShot: no bullet type or no pattern fires nothing;
      otherwise the pattern's layout. Only the N-way layout reads the slot's fan
      angle, and Single and RandomGap ignore the burst step. */
  function ShotRequests(env: ShotEnv, data: ShotData, step: int, fan: real, origin: Vec, team: TeamSide, cur: nat): (r: Shot)
    ensures data.bulletType.None? || data.pattern == NoPattern ==> r == Shot([], cur)
    ensures forall q :: q in r.reqs ==> q.team == team
    ensures data.bulletType.Some? ==> forall q :: q in r.reqs ==> q.bullet == data.bulletType.value
  {
    match data.bulletType
    case None => Shot([], cur)
    case Some(bullet) =>
      var call := ShotCall(data, bullet, origin, team);
      match data.pattern
      case Single => SingleShot(env, call, cur)
      case NWay => NWayShot(env, call, step, fan, cur)
      case AllDirections => AllDirectionsShot(env, call, step, cur)
      case RandomGap => RandomGapShot(env, call, cur)
      case NoPattern => Shot([], cur)
  }

  /** BulletSpawner.ExecuteShot with the loops of the chosen pattern. */
  method ExecuteShot(env: ShotEnv, data: ShotData, step: int, fan: real, origin: Vec, team: TeamSide, cur0: nat)
    returns (reqs: seq<SpawnRequest>, cur: nat)
    ensures Shot(reqs, cur) == ShotRequests(env, data, step, fan, origin, team, cur0)
  {
    if data.bulletType.None? {
      return [], cur0;
    }
    var call := ShotCall(data, data.bulletType.value, origin, team);
    match data.pattern {
      case Single =>
        var aimed := CalculateAngle(env, data, origin, cur0);
        reqs, cur := ShootGrid(env, call, SingleLayout(aimed.0), aimed.1);
      case NWay =>
        var aimed := CalculateAngle(env, data, origin, cur0);
        reqs, cur := ShootGrid(env, call, NWayLayout(data, step, fan, aimed.0), aimed.1);
      case AllDirections =>
        var aimed := CalculateAngle(env, data, origin, cur0);
        reqs, cur := ShootGrid(env, call, AllDirectionsLayout(data, step, aimed.0), aimed.1);
      case RandomGap =>
        reqs, cur := ShootRandomGap(env, call, cur0);
      case NoPattern =>
        reqs, cur := [], cur0;
    }
  }
}
