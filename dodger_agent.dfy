/** The status side of DodgerAgent: health, the stun and invincibility
    timers, the round-active flag and its start countdown, the start side,
    the bullet-hit filter and the dodge flag. Observations, rewards and the
    keyboard heuristic belong to the learning library and are not modelled. */
module Dodger {
  import opened Common

  /** Distance of either start position from the centre line. */
  const StartOffset: real := 6.0

  /** The waits of RoundStartRoutine outside training: "3", "2", "1", "GO". */
  const CountdownWaits: seq<real> := [1.0, 1.0, 1.0, 0.5]

  /** Calls the agent makes on other components. */
  datatype Request =
    | ReturnAllBullets   // BulletPool.ReturnAllBullets
    | ResetTimer         // GameTimerManager.ResetTimer
    | CancelAllSkills    // BulletSpawner.CancelAllSkills (not defined in BulletSpawner.cs)
    | ResetAllRecasts    // BulletSpawner.ResetAllRecasts (not defined in BulletSpawner.cs)
    | ClearAllBullets    // GameTimerManager.ClearAllBullets (not defined in GameTimerManager.cs)
    | StopOpponent       // opponentAgent.StopAgentAction

  /** The two status timers. */
  datatype Timers = Timers(stunTimer: real, invincibilityTimer: real)

  /** What a bullet's EnemyBullet reports: its team and continuous-hit flag,
      which the agent reads as Team and IsContinuousHit, and DamageValue.
      Team and IsContinuousHit are not defined in EnemyBullet.cs, so both
      enter the model as inputs. */
  datatype BulletInfo = BulletInfo(team: TeamSide, continuousHit: bool, damage: int)

  /** A trigger contact: whether the collider is tagged Enemy_Bullet and the
      EnemyBullet on it, if any. */
  datatype Contact = Contact(enemyBulletTag: bool, bullet: Option<BulletInfo>)

  /** How OnActionReceived ends before any movement is applied. */
  datatype ActionOutcome = RoundInactive | EpisodeLimit | Acted(canMove: bool)

  /** The status part of one OnActionReceived. A running stun counts down on
      its own and, on the tick it runs out, grants invincibility; otherwise a
      running invincibility counts down. The flag is canMove. */
  function StatusTick(t: Timers, dt: real, invincibilityDuration: real): (r: (Timers, bool))
    ensures r.1 <==> t.stunTimer <= 0.0
    ensures r.0.stunTimer <= t.stunTimer || dt < 0.0
  {
    if t.stunTimer > 0.0 then
      var stun := t.stunTimer - dt;
      (Timers(stun, if stun <= 0.0 then invincibilityDuration else t.invincibilityTimer), false)
    else if t.invincibilityTimer > 0.0 then
      (Timers(t.stunTimer, t.invincibilityTimer - dt), true)
    else
      (t, true)
  }

  /** The timers after one StatusTick per frame time, first frame first. */
  function Ticks(t: Timers, dts: seq<real>, invincibilityDuration: real): Timers
    decreases |dts|
  {
    if dts == [] then t
    else Ticks(StatusTick(t, dts[0], invincibilityDuration).0, dts[1..], invincibilityDuration)
  }

  lemma {:induction false} TicksAppend(t: Timers, a: seq<real>, b: seq<real>, invincibilityDuration: real)
    ensures Ticks(t, a + b, invincibilityDuration) ==
            Ticks(Ticks(t, a, invincibilityDuration), b, invincibilityDuration)
    decreases |a|
  {
    if a == [] {
      assert a + b == b;
    } else {
      assert (a + b)[1..] == a[1..] + b;
      TicksAppend(StatusTick(t, a[0], invincibilityDuration).0, a[1..], b, invincibilityDuration);
    }
  }

  /** While the stun lasts it counts down by the elapsed time and the
      invincibility timer stays where it was. */
  lemma {:induction false} StunFreezesInvincibility(t: Timers, dts: seq<real>, invincibilityDuration: real)
    requires t.stunTimer > 0.0 && AllNonneg(dts) && Sum(dts) < t.stunTimer
    ensures Ticks(t, dts, invincibilityDuration) == Timers(t.stunTimer - Sum(dts), t.invincibilityTimer)
    decreases |dts|
  {
    if dts != [] {
      assert AllNonneg(dts[1..]) by {
        forall i | 0 <= i < |dts[1..]| ensures dts[1..][i] >= 0.0 { assert dts[1..][i] == dts[i + 1]; }
      }
      SumNonneg(dts[1..]);
      var next := StatusTick(t, dts[0], invincibilityDuration).0;
      assert next == Timers(t.stunTimer - dts[0], t.invincibilityTimer);
      StunFreezesInvincibility(next, dts[1..], invincibilityDuration);
    }
  }

  /** On the frame where the elapsed time first reaches the stun, the agent
      becomes invincible for the full invincibility duration. */
  lemma StunEndsInInvincibility(t: Timers, dts: seq<real>, invincibilityDuration: real)
    requires t.stunTimer > 0.0 && AllNonneg(dts) && dts != []
    requires Sum(dts[..|dts| - 1]) < t.stunTimer <= Sum(dts)
    ensures Ticks(t, dts, invincibilityDuration) == Timers(t.stunTimer - Sum(dts), invincibilityDuration)
  {
    var front := dts[..|dts| - 1];
    var last := dts[|dts| - 1];
    assert front + [last] == dts;
    assert AllNonneg(front) by {
      forall i | 0 <= i < |front| ensures front[i] >= 0.0 { assert front[i] == dts[i]; }
    }
    StunFreezesInvincibility(t, front, invincibilityDuration);
    TicksAppend(t, front, [last], invincibilityDuration);
    SumAppend(front, [last]);
    assert Sum([last]) == last;
    var mid := Ticks(t, front, invincibilityDuration);
    assert Ticks(mid, [last], invincibilityDuration) == StatusTick(mid, last, invincibilityDuration).0;
  }

  /** Without a stun, invincibility counts down by the elapsed time. */
  lemma {:induction false} InvincibilityRunsDown(t: Timers, dts: seq<real>, invincibilityDuration: real)
    requires t.stunTimer <= 0.0 && AllNonneg(dts) && Sum(dts) < t.invincibilityTimer
    ensures Ticks(t, dts, invincibilityDuration) == Timers(t.stunTimer, t.invincibilityTimer - Sum(dts))
    decreases |dts|
  {
    if dts != [] {
      assert AllNonneg(dts[1..]) by {
        forall i | 0 <= i < |dts[1..]| ensures dts[1..][i] >= 0.0 { assert dts[1..][i] == dts[i + 1]; }
      }
      SumNonneg(dts[1..]);
      var next := StatusTick(t, dts[0], invincibilityDuration).0;
      assert next == Timers(t.stunTimer, t.invincibilityTimer - dts[0]);
      InvincibilityRunsDown(next, dts[1..], invincibilityDuration);
    }
  }

  /** The hit filter of OnTriggerEnter2D: a bullet is ignored while the round
      is inactive, while the agent is invincible, when it is the agent's own
      team's, and while the agent is stunned unless it is continuous-hit. */
  predicate HitLands(roundActive: bool, t: Timers, myTeam: TeamSide, b: BulletInfo)
  {
    if !roundActive || t.invincibilityTimer > 0.0 then false
    else if b.team == myTeam then false
    else if t.stunTimer > 0.0 && !b.continuousHit then false
    else true
  }

  /** The four ways a hit is ignored are the only ones. */
  lemma HitLandsExactly(roundActive: bool, t: Timers, myTeam: TeamSide, b: BulletInfo)
    ensures HitLands(roundActive, t, myTeam, b) <==>
            roundActive && t.invincibilityTimer <= 0.0 && b.team != myTeam &&
            (t.stunTimer <= 0.0 || b.continuousHit)
  {
  }

  /** The x of the start position: P1 on the left and P2 on the right,
      mirrored when the sides are swapped. */
  function StartX(isP1: bool, swapped: bool): (x: real)
    ensures x == StartOffset || x == -StartOffset
    ensures x < 0.0 <==> isP1 != swapped
  {
    if isP1 then (if swapped then StartOffset else -StartOffset)
    else (if swapped then -StartOffset else StartOffset)
  }

  /** The shared static (isSideSwapped, lastUpdateFrame) after one
      OnEpisodeBegin in `frame` with the draw Random.value: only the first
      agent to begin in a frame draws. */
  function SideSyncStep(swapped: bool, lastFrame: int, frame: int, value: real): (r: (bool, int))
    ensures r.1 == frame
    ensures frame == lastFrame ==> r.0 == swapped
    ensures frame != lastFrame ==> (r.0 <==> value > 0.5)
  {
    if frame != lastFrame then (value > 0.5, frame) else (swapped, lastFrame)
  }

  /** Two agents beginning in the same frame see the same swap and so start
      on opposite sides, whatever the second draw. */
  lemma SameFrameOppositeSides(swapped: bool, lastFrame: int, frame: int, v1: real, v2: real)
    ensures var a := SideSyncStep(swapped, lastFrame, frame, v1);
            var b := SideSyncStep(a.0, a.1, frame, v2);
            b == a && StartX(true, a.0) == -StartX(false, b.0)
  {
  }

  /** One frame of RoundStartRoutine's waits: the current wait runs down and
      the next one starts once it is over. */
  function CountdownStep(ws: seq<real>, dt: real): (r: seq<real>)
    ensures ws == [] ==> r == []
    ensures ws != [] && ws[0] - dt <= 0.0 ==> r == ws[1..]
    ensures ws != [] && ws[0] - dt > 0.0 ==> |r| == |ws| && r[1..] == ws[1..] && r[0] == ws[0] - dt
  {
    if ws == [] then []
    else if ws[0] - dt <= 0.0 then ws[1..]
    else [ws[0] - dt] + ws[1..]
  }

  /** The shared isSideSwapped and lastUpdateFrame statics. */
  class SideSync {
    var swapped: bool
    var lastFrame: int

    constructor ()
      ensures !swapped && lastFrame == -1
    {
      swapped := false;
      lastFrame := -1;
    }
  }

  class DodgerAgent {
    const team: TeamSide                 // spawner.myTeam
    const maxHealth: real
    const stunDuration: real
    const invincibilityDuration: real
    var health: real
    var stunTimer: real
    var invincibilityTimer: real
    var roundActive: bool
    var countdown: seq<real>             // waits left in RoundStartRoutine
    var dodging: bool
    var pos: Vec
    var requests: seq<Request>

    function CurrentTimers(): Timers
      reads this
    {
      Timers(stunTimer, invincibilityTimer)
    }

    /** IsInvincible */
    predicate IsInvincible()
      reads this
    {
      invincibilityTimer > 0.0
    }

    /** Initialize: the team and the profile's maximum health; the status
        durations keep their defaults. */
    constructor (myTeam: TeamSide, profileMaxHealth: real)
      ensures team == myTeam && maxHealth == profileMaxHealth
      ensures stunDuration == 2.0 && invincibilityDuration == 5.0
      ensures health == 0.0 && stunTimer == 0.0 && invincibilityTimer == 0.0
      ensures !roundActive && !dodging && countdown == [] && requests == []
    {
      team := myTeam;
      maxHealth := profileMaxHealth;
      stunDuration := 2.0;
      invincibilityDuration := 5.0;
      health := 0.0;
      stunTimer := 0.0;
      invincibilityTimer := 0.0;
      roundActive := false;
      countdown := [];
      dodging := false;
      pos := Vec(0.0, 0.0);
      requests := [];
    }

    /** OnEpisodeBegin in `frame`, with the draw Random.value and whether the
        trainer is connected. Returns whether the agent binds the left UI. */
    method OnEpisodeBegin(sync: SideSync, frame: int, randomValue: real, training: bool)
      returns (onLeft: bool)
      modifies this, sync
      ensures (sync.swapped, sync.lastFrame) ==
              SideSyncStep(old(sync.swapped), old(sync.lastFrame), frame, randomValue)
      ensures pos == Vec(StartX(team == Player1, sync.swapped), 0.0)
      ensures onLeft <==> pos.x < 0.0
      ensures health == maxHealth && stunTimer == 0.0 && invincibilityTimer == 0.0
      ensures roundActive == training
      ensures countdown == if training then [] else CountdownWaits
      ensures requests == old(requests) + [ReturnAllBullets, ResetTimer] +
                          (if frame != old(sync.lastFrame) then [ReturnAllBullets] else [])
      ensures dodging == old(dodging)
    {
      requests := requests + [ReturnAllBullets, ResetTimer];
      // StopAllCoroutines, then RoundStartRoutine runs up to its first wait
      roundActive := false;
      countdown := [];
      if training {
        roundActive := true;
      } else {
        countdown := CountdownWaits;
      }
      health := maxHealth;
      var isP1 := team == Player1;
      if frame != sync.lastFrame {
        sync.swapped := randomValue > 0.5;
        sync.lastFrame := frame;
        requests := requests + [ReturnAllBullets];
      }
      var startX: real;
      if isP1 {
        startX := if sync.swapped then StartOffset else -StartOffset;
        onLeft := !sync.swapped;
      } else {
        startX := if sync.swapped then -StartOffset else StartOffset;
        onLeft := sync.swapped;
      }
      pos := Vec(startX, 0.0);
      stunTimer := 0.0;
      invincibilityTimer := 0.0;
    }

    /** RoundStartRoutine's progress in one frame: the round becomes active
        when its last wait is over. */
    method RoundStartTick(dt: real)
      modifies this
      ensures countdown == CountdownStep(old(countdown), dt)
      ensures roundActive <==> old(roundActive) || (old(countdown) != [] && countdown == [])
      ensures health == old(health) && CurrentTimers() == old(CurrentTimers())
      ensures dodging == old(dodging) && pos == old(pos) && requests == old(requests)
    {
      if countdown != [] {
        var left := countdown[0] - dt;
        if left <= 0.0 {
          countdown := countdown[1..];
          if countdown == [] {
            roundActive := true;
          }
        } else {
          countdown := [left] + countdown[1..];
        }
      }
    }

    /** The status part of OnActionReceived, given StepCount and MaxStep. */
    method OnActionReceived(dt: real, stepCount: int, maxStep: int) returns (outcome: ActionOutcome)
      modifies this
      ensures !old(roundActive) ==> outcome == RoundInactive && CurrentTimers() == old(CurrentTimers())
      ensures old(roundActive) && stepCount >= maxStep - 1 && maxStep > 0 ==>
                outcome == EpisodeLimit && CurrentTimers() == old(CurrentTimers())
      ensures old(roundActive) && !(stepCount >= maxStep - 1 && maxStep > 0) ==>
                var r := StatusTick(old(CurrentTimers()), dt, invincibilityDuration);
                outcome == Acted(r.1) && CurrentTimers() == r.0
      ensures health == old(health) && roundActive == old(roundActive) && countdown == old(countdown)
      ensures dodging == old(dodging) && pos == old(pos) && requests == old(requests)
    {
      if !roundActive {
        return RoundInactive;
      }
      if stepCount >= maxStep - 1 && maxStep > 0 {
        return EpisodeLimit;
      }
      var canMove := true;
      if stunTimer > 0.0 {
        stunTimer := stunTimer - dt;
        canMove := false;
        if stunTimer <= 0.0 {
          invincibilityTimer := invincibilityDuration;
        }
      } else if invincibilityTimer > 0.0 {
        invincibilityTimer := invincibilityTimer - dt;
      }
      outcome := Acted(canMove);
    }

    /** Heal: add the amount, capped at the maximum. */
    method Heal(amount: real)
      modifies this
      ensures health == Min(old(health) + amount, maxHealth)
      ensures health <= maxHealth
      ensures amount >= 0.0 && old(health) <= maxHealth ==> old(health) <= health
      ensures CurrentTimers() == old(CurrentTimers()) && roundActive == old(roundActive)
      ensures countdown == old(countdown) && dodging == old(dodging) && pos == old(pos)
      ensures requests == old(requests)
    {
      health := health + amount;
      health := Min(health, maxHealth);
    }

    /** HandleMatchOver followed by ShowMatchResult: the round ends, the
        bullets are cleared, the skills are cancelled and recharged and the
        opponent, if still active, is stopped. */
    method HandleMatchOver(opponentActive: bool)
      modifies this
      ensures !roundActive
      ensures requests == old(requests) + [ClearAllBullets, CancelAllSkills, ResetAllRecasts] +
                          (if opponentActive then [StopOpponent] else [])
      ensures health == old(health) && CurrentTimers() == old(CurrentTimers())
      ensures countdown == old(countdown) && dodging == old(dodging) && pos == old(pos)
    {
      roundActive := false;
      requests := requests + [ClearAllBullets, CancelAllSkills, ResetAllRecasts];
      if opponentActive {
        requests := requests + [StopOpponent];
      }
    }

    /** TakeDamage: nothing while invincible; otherwise lose the amount,
        cancel the skills, and either end the match or be stunned. */
    method TakeDamage(amount: real, opponentActive: bool)
      modifies this
      ensures old(invincibilityTimer) > 0.0 ==>
                health == old(health) && requests == old(requests) &&
                roundActive == old(roundActive) && stunTimer == old(stunTimer)
      ensures old(invincibilityTimer) <= 0.0 ==> health == old(health) - amount
      ensures old(invincibilityTimer) <= 0.0 && health <= 0.0 ==>
                !roundActive && stunTimer == old(stunTimer) &&
                requests == old(requests) + [CancelAllSkills, ClearAllBullets, CancelAllSkills, ResetAllRecasts] +
                            (if opponentActive then [StopOpponent] else [])
      ensures old(invincibilityTimer) <= 0.0 && health > 0.0 ==>
                roundActive == old(roundActive) && stunTimer == stunDuration &&
                requests == old(requests) + [CancelAllSkills]
      ensures invincibilityTimer == old(invincibilityTimer)
      ensures countdown == old(countdown) && dodging == old(dodging) && pos == old(pos)
    {
      if invincibilityTimer > 0.0 {
        return;
      }
      health := health - amount;
      requests := requests + [CancelAllSkills];
      if health <= 0.0 {
        HandleMatchOver(opponentActive);
      } else {
        stunTimer := stunDuration;
      }
    }

    /** OnTriggerEnter2D: a bullet that passes the hit filter deals its
        damage and is deactivated (the returned flag); assault objects and
        everything else are left to their own scripts. */
    method OnTriggerEnter2D(c: Contact, opponentActive: bool) returns (deactivate: bool)
      modifies this
      ensures deactivate <==> c.enemyBulletTag && c.bullet.Some? &&
                              HitLands(old(roundActive), old(CurrentTimers()), team, c.bullet.value)
      ensures deactivate ==> health == old(health) - c.bullet.value.damage as real
      ensures deactivate && health > 0.0 ==> stunTimer == stunDuration
      ensures deactivate && health <= 0.0 ==> !roundActive
      ensures !deactivate ==>
                health == old(health) && CurrentTimers() == old(CurrentTimers()) &&
                roundActive == old(roundActive) && requests == old(requests)
      ensures invincibilityTimer == old(invincibilityTimer)
      ensures countdown == old(countdown) && dodging == old(dodging) && pos == old(pos)
    {
      deactivate := false;
      if !roundActive || invincibilityTimer > 0.0 {
        return;
      }
      if c.enemyBulletTag && c.bullet.Some? {
        var eb := c.bullet.value;
        if eb.team != team {
          var isStunned := stunTimer > 0.0;
          if isStunned && !eb.continuousHit {
            return;
          }
          TakeDamage(eb.damage as real, opponentActive);
          deactivate := true;
        }
      }
    }

    /** TriggerInvincibility: overwrite the invincibility timer. */
    method TriggerInvincibility(duration: real)
      modifies this
      ensures invincibilityTimer == duration && stunTimer == old(stunTimer)
      ensures health == old(health) && roundActive == old(roundActive) && countdown == old(countdown)
      ensures dodging == old(dodging) && pos == old(pos) && requests == old(requests)
    {
      invincibilityTimer := duration;
    }

    /** StartDodgeAction: ignored while already dodging; otherwise the dodge
        begins and makes the agent invincible for its duration. */
    method StartDodgeAction(duration: real)
      modifies this
      ensures old(dodging) ==> invincibilityTimer == old(invincibilityTimer)
      ensures !old(dodging) ==> invincibilityTimer == duration
      ensures dodging
      ensures stunTimer == old(stunTimer) && health == old(health) && roundActive == old(roundActive)
      ensures countdown == old(countdown) && pos == old(pos) && requests == old(requests)
    {
      if dodging {
        return;
      }
      dodging := true;
      TriggerInvincibility(duration);
    }

    /** EndDodgeAction: ignored while not dodging; the invincibility is left
        to run out on its own. */
    method EndDodgeAction()
      modifies this
      ensures !dodging
      ensures CurrentTimers() == old(CurrentTimers())
      ensures health == old(health) && roundActive == old(roundActive) && countdown == old(countdown)
      ensures pos == old(pos) && requests == old(requests)
    {
      if !dodging {
        return;
      }
      dodging := false;
    }

    /** StopAgentAction: the opponent's match is over. */
    method StopAgentAction()
      modifies this
      ensures !roundActive
      ensures requests == old(requests) + [CancelAllSkills, ResetAllRecasts]
      ensures health == old(health) && CurrentTimers() == old(CurrentTimers())
      ensures countdown == old(countdown) && dodging == old(dodging) && pos == old(pos)
    {
      roundActive := false;
      requests := requests + [CancelAllSkills, ResetAllRecasts];
    }
  }
}
