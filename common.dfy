/** Shared vocabulary of the model: optional values, the two teams, 2-D vectors,
    the engine's math helpers (Mathf / Vector3) and the random tape that stands
    for UnityEngine.Random. */
module Common {

  datatype Option<+T> = None | Some(value: T)

  datatype Result<+T> = Ok(value: T) | Err(message: string)

  /** BulletSpawner.TeamSide */
  datatype TeamSide = Player1 | Player2

  function Opponent(t: TeamSide): (r: TeamSide)
    ensures r != t
  {
    if t == Player1 then Player2 else Player1
  }

  /** Collision layers, named after the team they belong to ("Player1",
      "Player1_Bullet", ...); any other layer is Other. */
  datatype Layer = AgentLayer(team: TeamSide) | BulletLayer(team: TeamSide) | OtherLayer

  /** What a bullet-clearing contact does to the other object: an EnemyBullet
      is deactivated, any other object goes straight back to the pool. */
  datatype ClearAction = Ignore | DeactivateBullet | ReturnToPool

  /** Positions are 2-D; every z the game uses is 0. */
  datatype Vec = Vec(x: real, y: real)
  {
    function Plus(o: Vec): Vec { Vec(x + o.x, y + o.y) }
    function Minus(o: Vec): Vec { Vec(x - o.x, y - o.y) }
    function Scale(k: real): Vec { Vec(x * k, y * k) }
    function SqrMagnitude(): real { x * x + y * y }
  }

  /** The transcendental functions of the engine, left uninterpreted: angles in
      degrees (Mathf.Atan2 * Rad2Deg, Mathf.Cos(a * Deg2Rad), ...) and the square
      root behind Vector3.Distance and Vector3.MoveTowards. */
  datatype Trig = Trig(atan2Deg: (real, real) -> real, cosDeg: real -> real,
                       sinDeg: real -> real, sqrt: real -> real)

  /** The square root is sound at one point. */
  predicate SqrtAt(trig: Trig, v: real)
  {
    trig.sqrt(v) >= 0.0 && trig.sqrt(v) * trig.sqrt(v) == v
  }

  function Abs(x: real): (r: real)
    ensures r >= 0.0 && (r == x || r == -x)
  {
    if x < 0.0 then -x else x
  }

  function Min(a: real, b: real): (r: real)
    ensures r <= a && r <= b && (r == a || r == b)
  {
    if a <= b then a else b
  }

  function Max(a: real, b: real): (r: real)
    ensures r >= a && r >= b && (r == a || r == b)
  {
    if a >= b then a else b
  }

  /** Mathf.Clamp01 */
  function Clamp01(v: real): (r: real)
    ensures 0.0 <= r <= 1.0
    ensures 0.0 <= v <= 1.0 ==> r == v
    ensures v < 0.0 ==> r == 0.0
    ensures v > 1.0 ==> r == 1.0
  {
    if v < 0.0 then 0.0 else if v > 1.0 then 1.0 else v
  }

  /** Mathf.Clamp(value, min, max): the lower bound is tested first. */
  function Clamp(v: real, lo: real, hi: real): (r: real)
    ensures lo <= hi ==> lo <= r <= hi
    ensures lo <= v <= hi ==> r == v
  {
    if v < lo then lo else if v > hi then hi else v
  }

  lemma MulNonneg(x: real, y: real)
    requires x >= 0.0 && y >= 0.0
    ensures x * y >= 0.0
  {
  }

  /** A product p = x * c with a unit factor c lies between 0 and x. */
  lemma MulBounds(x: real, c: real, p: real)
    requires 0.0 <= c <= 1.0 && p == x * c
    ensures x >= 0.0 ==> 0.0 <= p <= x
    ensures x <= 0.0 ==> x <= p <= 0.0
  {
    var q := x * (1.0 - c);
    assert p + q == x;
    if x >= 0.0 {
      MulNonneg(x, c);
      MulNonneg(x, 1.0 - c);
    } else {
      MulNonneg(-x, c);
      MulNonneg(-x, 1.0 - c);
    }
  }

  /** x * c for a unit factor c. */
  function Scaled(x: real, c: real): (r: real)
    requires 0.0 <= c <= 1.0
    ensures x >= 0.0 ==> 0.0 <= r <= x
    ensures x <= 0.0 ==> x <= r <= 0.0
    ensures c == 0.0 ==> r == 0.0
    ensures c == 1.0 ==> r == x
  {
    var p := x * c;
    MulBounds(x, c, p);
    p
  }

  /** Mathf.Lerp: the parameter is clamped to [0,1]. */
  function Lerp(a: real, b: real, t: real): (r: real)
    ensures t <= 0.0 ==> r == a
    ensures t >= 1.0 ==> r == b
    ensures a <= b ==> a <= r <= b
    ensures b <= a ==> b <= r <= a
  {
    a + Scaled(b - a, Clamp01(t))
  }

  /** Vector3.Lerp, also with a clamped parameter. */
  function LerpVec(a: Vec, b: Vec, t: real): Vec
  {
    Vec(Lerp(a.x, b.x, t), Lerp(a.y, b.y, t))
  }

  /** Mathf.MoveTowards: step from current toward target by at most maxDelta. */
  function MoveTowards(current: real, target: real, maxDelta: real): (r: real)
    ensures Abs(target - current) <= maxDelta ==> r == target
    ensures maxDelta >= 0.0 ==> Abs(target - r) <= Abs(target - current)
    ensures maxDelta >= 0.0 && current <= target ==> current <= r <= target
    ensures maxDelta >= 0.0 && target <= current ==> target <= r <= current
    ensures maxDelta >= 0.0 && r != target ==> Abs(r - current) == maxDelta
  {
    if Abs(target - current) <= maxDelta then target
    else if target - current >= 0.0 then current + maxDelta
    else current - maxDelta
  }

  /** Vector3.MoveTowards (z = 0): current + (target - current) / dist * maxDelta,
      written as a scaling by maxDelta / dist (the same value over the reals). */
  function MoveTowardsVec(trig: Trig, current: Vec, target: Vec, maxDelta: real): Vec
  {
    var to := target.Minus(current);
    var sq := to.SqrMagnitude();
    if sq == 0.0 || (maxDelta >= 0.0 && sq <= maxDelta * maxDelta) then target
    else
      var dist := trig.sqrt(sq);
      if dist == 0.0 then current  // unreachable for a sound square root
      else current.Plus(to.Scale(maxDelta / dist))
  }

  /** Vector3.Distance */
  function Distance(trig: Trig, a: Vec, b: Vec): real
  {
    trig.sqrt(b.Minus(a).SqrMagnitude())
  }

  lemma SquareMonotone(s: real, d: real, ss: real, dd: real)
    requires 0.0 <= s <= d && ss == s * s && dd == d * d
    ensures ss <= dd
  {
    MulNonneg(d - s, d + s);
    assert (d - s) * (d + s) == dd - ss;
  }

  /** A sound square root of a value above d*d exceeds d. */
  lemma SqrtAbove(s: real, sq: real, d: real)
    requires s >= 0.0 && s * s == sq && d >= 0.0 && sq > d * d
    ensures s > d
  {
    if s <= d {
      SquareMonotone(s, d, s * s, d * d);
    }
  }

  lemma PositiveFactor(f: real, s: real, p: real)
    requires s > 0.0 && p == f * s && p > 0.0
    ensures f > 0.0
  {
    if f <= 0.0 {
      MulNonneg(-f, s);
    }
  }

  lemma DivBelowOne(a: real, s: real)
    requires 0.0 <= a < s
    ensures 0.0 <= a / s < 1.0
  {
    var t := a / s;
    PositiveFactor(1.0 - t, s, s - a);
    if a > 0.0 {
      PositiveFactor(t, s, a);
    }
  }

  /** Vector3.MoveTowards never overshoots: the result is the target, or a point
      strictly between current and target, at the fraction maxDelta / distance. */
  lemma MoveTowardsVecOnSegment(trig: Trig, current: Vec, target: Vec, maxDelta: real)
    requires maxDelta >= 0.0
    requires SqrtAt(trig, target.Minus(current).SqrMagnitude())
    ensures var r := MoveTowardsVec(trig, current, target, maxDelta);
            r == target ||
            (var t := maxDelta / trig.sqrt(target.Minus(current).SqrMagnitude());
             0.0 <= t < 1.0 && r == current.Plus(target.Minus(current).Scale(t)))
  {
    var sq := target.Minus(current).SqrMagnitude();
    if !(sq == 0.0 || sq <= maxDelta * maxDelta) {
      var s := trig.sqrt(sq);
      SqrtAbove(s, sq, maxDelta);
      DivBelowOne(maxDelta, s);
    }
  }

  /** Mathf.Repeat(t, 360) */
  function Repeat360(t: real): (r: real)
    ensures 0.0 <= r < 360.0
  {
    var q := (t / 360.0).Floor;
    var r0 := t - q as real * 360.0;
    assert q as real <= t / 360.0 < q as real + 1.0;
    assert q as real * 360.0 <= t < q as real * 360.0 + 360.0;
    r0
  }

  /** Mathf.DeltaAngle(current, target): the signed shortest difference. */
  function DeltaAngle(current: real, target: real): (r: real)
    ensures -180.0 < r <= 180.0
  {
    var n := Repeat360(target - current);
    if n > 180.0 then n - 360.0 else n
  }

  /** DeltaAngle differs from target - current by a whole number of turns. */
  lemma DeltaAngleIsCongruent(current: real, target: real)
    ensures var q := ((target - current) / 360.0).Floor;
            DeltaAngle(current, target) == target - current - 360.0 * q as real ||
            DeltaAngle(current, target) == target - current - 360.0 * (q + 1) as real
  {
  }

  /** A draw of UnityEngine.Random.value: a real in [0,1]. */
  type Unit = u: real | 0.0 <= u <= 1.0

  /** The random source as an infinite tape of unit draws, read at a cursor that
      every Random.Range call advances by one. */
  type Tape = nat -> Unit

  /** Random.Range(lo, hi) for floats, given the draw u: lo + (hi - lo) * u. */
  function RangeDraw(lo: real, hi: real, u: Unit): (r: real)
    ensures lo <= hi ==> lo <= r <= hi
    ensures hi <= lo ==> hi <= r <= lo
  {
    lo + Scaled(hi - lo, u)
  }

  /** A symmetric jitter Random.Range(-j, j) stays within |j|. */
  lemma JitterBound(j: real, u: Unit)
    ensures Abs(RangeDraw(-j, j, u)) <= Abs(j)
  {
  }

  /** The total of a list of frame times or amounts, first element first. */
  function Sum(xs: seq<real>): real
  {
    if xs == [] then 0.0 else xs[0] + Sum(xs[1..])
  }

  predicate AllNonneg(xs: seq<real>)
  {
    forall i :: 0 <= i < |xs| ==> xs[i] >= 0.0
  }

  lemma SumNonneg(xs: seq<real>)
    requires AllNonneg(xs)
    ensures Sum(xs) >= 0.0
  {
    if xs != [] {
      SumNonneg(xs[1..]);
    }
  }

  lemma {:induction false} SumAppend(xs: seq<real>, ys: seq<real>)
    ensures Sum(xs + ys) == Sum(xs) + Sum(ys)
  {
    if xs == [] {
      assert xs + ys == ys;
    } else {
      assert (xs + ys)[1..] == xs[1..] + ys;
      SumAppend(xs[1..], ys);
    }
  }
}
