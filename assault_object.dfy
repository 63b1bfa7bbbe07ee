/** AssaultObject: a body that flies straight along x towards the opponent for
    a fixed time, clears the opponent's bullets it touches, and damages the
    first opposing, non-invincible agent it meets, once. */
module Assault {
  import opened Common

  /** The DodgerAgent found above a collider: its team and IsInvincible. */
  datatype AgentContact = AgentContact(team: TeamSide, invincible: bool)

  /** A trigger contact: the collider's layer, whether it carries an
      EnemyBullet, and the agent it belongs to, if any. */
  datatype Contact = Contact(layer: Layer, isEnemyBullet: bool, agent: Option<AgentContact>)

  /** A call hitAgent.TakeDamage(damage, attacker). */
  datatype Hit = Hit(damage: int, attacker: TeamSide)

  /** Face the target along x; with no target, face along transform.right. */
  function FacingDirection(target: Option<Vec>, x: real, rightX: real): (d: int)
    ensures d == 1 || d == -1
    ensures target.Some? ==> (d == 1 <==> target.value.x > x)
    ensures target.None? ==> (d == 1 <==> rightX >= 0.0)
  {
    if target.Some? then (if target.value.x > x then 1 else -1)
    else if rightX >= 0.0 then 1 else -1
  }

  /** The sprite is flipped to face the direction of travel. */
  function FacingScale(scaleX: real, direction: int): (r: real)
    requires direction == 1 || direction == -1
    ensures Abs(r) == Abs(scaleX)
    ensures direction == 1 ==> r >= 0.0
    ensures direction == -1 ==> r <= 0.0
  {
    Abs(scaleX) * direction as real
  }

  /** The bullet-clearing half of OnTriggerEnter2D. */
  function ClearFor(opponentBulletLayer: Layer, c: Contact): (r: ClearAction)
    ensures r != Ignore <==> c.layer == opponentBulletLayer
    ensures r == DeactivateBullet <==> c.layer == opponentBulletLayer && c.isEnemyBullet
  {
    if c.layer != opponentBulletLayer then Ignore
    else if c.isEnemyBullet then DeactivateBullet
    else ReturnToPool
  }

  /** The damage half of OnTriggerEnter2D: only while no hit has landed, only
      on an agent of the other team that is not invincible. */
  function HitFor(hasHit: bool, owner: TeamSide, damage: int, c: Contact): (r: Option<Hit>)
    ensures r.Some? <==> !hasHit && c.agent.Some? && c.agent.value.team != owner &&
                         !c.agent.value.invincible
    ensures r.Some? ==> r.value == Hit(damage, owner)
  {
    if hasHit || c.agent.None? then None
    else if c.agent.value.team == owner || c.agent.value.invincible then None
    else Some(Hit(damage, owner))
  }

  /** The hits a sequence of contacts lands, starting from hasHit. */
  function HitsOver(hasHit: bool, owner: TeamSide, damage: int, cs: seq<Contact>): seq<Hit>
    decreases |cs|
  {
    if cs == [] then []
    else
      var h := HitFor(hasHit, owner, damage, cs[0]);
      (if h.Some? then [h.value] else []) + HitsOver(hasHit || h.Some?, owner, damage, cs[1..])
  }

  /** TakeDamage is called at most once over the object's whole life, and never
      once a hit has landed. */
  lemma {:induction false} AtMostOneHit(hasHit: bool, owner: TeamSide, damage: int, cs: seq<Contact>)
    ensures |HitsOver(hasHit, owner, damage, cs)| <= 1
    ensures hasHit ==> HitsOver(hasHit, owner, damage, cs) == []
    decreases |cs|
  {
    if cs != [] {
      var h := HitFor(hasHit, owner, damage, cs[0]);
      AtMostOneHit(hasHit || h.Some?, owner, damage, cs[1..]);
    }
  }

  /** The first contact with an opposing, non-invincible agent lands the hit;
      same-team and invincible agents before it do not use it up. */
  lemma {:induction false} FirstOpponentIsHit(owner: TeamSide, damage: int, cs: seq<Contact>, k: nat)
    requires k < |cs|
    requires cs[k].agent.Some? && cs[k].agent.value.team != owner && !cs[k].agent.value.invincible
    requires forall j :: 0 <= j < k ==>
               cs[j].agent.None? || cs[j].agent.value.team == owner || cs[j].agent.value.invincible
    ensures HitsOver(false, owner, damage, cs) == [Hit(damage, owner)]
    decreases k
  {
    if k == 0 {
      AtMostOneHit(true, owner, damage, cs[1..]);
    } else {
      assert HitFor(false, owner, damage, cs[0]) == None;
      FirstOpponentIsHit(owner, damage, cs[1..], k - 1);
    }
  }

  class AssaultObject {
    var pos: Vec
    var scaleX: real
    var speed: real
    var lifeTimer: real
    var damage: int
    var opponentBulletLayer: Layer
    var opponentLayer: Layer
    var direction: int
    var hasHit: bool
    var owner: TeamSide        // spawnerRef.myTeam
    var destroyed: bool

    /** Instantiate at a position with the prefab's x scale. */
    constructor (at: Vec, prefabScaleX: real)
      ensures pos == at && scaleX == prefabScaleX && !hasHit && !destroyed
    {
      pos := at;
      scaleX := prefabScaleX;
      speed := 0.0;
      lifeTimer := 0.0;
      damage := 0;
      opponentBulletLayer := OtherLayer;
      opponentLayer := OtherLayer;
      direction := 0;
      hasHit := false;
      owner := Player1;
      destroyed := false;
    }

    /** Initialize(spawner, myTeam, moveSpeed, duration, damageValue), given
        the position of spawner.Target, if any, and transform.right.x. */
    method Initialize(ownerTeam: TeamSide, myTeam: TeamSide, target: Option<Vec>, rightX: real,
                      moveSpeed: real, duration: real, damageValue: int)
      modifies this
      ensures owner == ownerTeam && speed == moveSpeed && lifeTimer == duration && damage == damageValue
      ensures direction == FacingDirection(target, old(pos).x, rightX)
      ensures scaleX == FacingScale(old(scaleX), direction)
      ensures opponentBulletLayer == BulletLayer(Opponent(myTeam))
      ensures opponentLayer == AgentLayer(Opponent(myTeam))
      ensures pos == old(pos) && hasHit == old(hasHit) && destroyed == old(destroyed)
    {
      owner := ownerTeam;
      speed := moveSpeed;
      lifeTimer := duration;
      damage := damageValue;
      if target.Some? {
        direction := if target.value.x > pos.x then 1 else -1;
      } else {
        direction := if rightX >= 0.0 then 1 else -1;
      }
      scaleX := Abs(scaleX) * direction as real;
      opponentBulletLayer := BulletLayer(Opponent(myTeam));
      opponentLayer := AgentLayer(Opponent(myTeam));
    }

    /** One frame: move along x only, run the life down, and destroy the
        object once its life is over. */
    method Update(dt: real)
      requires !destroyed
      modifies this
      ensures pos == Vec(old(pos).x + direction as real * speed * dt, old(pos).y)
      ensures lifeTimer == old(lifeTimer) - dt
      ensures destroyed <==> lifeTimer <= 0.0
      ensures hasHit == old(hasHit) && direction == old(direction) && speed == old(speed)
      ensures scaleX == old(scaleX) && damage == old(damage) && owner == old(owner)
      ensures opponentBulletLayer == old(opponentBulletLayer) && opponentLayer == old(opponentLayer)
    {
      pos := pos.Plus(Vec(direction as real * speed * dt, 0.0));
      lifeTimer := lifeTimer - dt;
      if lifeTimer <= 0.0 {
        destroyed := true;
      }
    }

    /** OnTriggerEnter2D: returns what is done to the other object and the
        TakeDamage call made, if any. */
    method OnTriggerEnter2D(c: Contact) returns (clear: ClearAction, hit: Option<Hit>)
      modifies this
      ensures clear == ClearFor(opponentBulletLayer, c)
      ensures hit == HitFor(old(hasHit), owner, damage, c)
      ensures hasHit == (old(hasHit) || hit.Some?)
      ensures pos == old(pos) && lifeTimer == old(lifeTimer) && destroyed == old(destroyed)
      ensures direction == old(direction) && damage == old(damage) && owner == old(owner)
      ensures opponentBulletLayer == old(opponentBulletLayer) && scaleX == old(scaleX)
      ensures speed == old(speed) && opponentLayer == old(opponentLayer)
    {
      clear := Ignore;
      if c.layer == opponentBulletLayer {
        clear := if c.isEnemyBullet then DeactivateBullet else ReturnToPool;
      }
      hit := None;
      if !hasHit && c.agent.Some? {
        var agent := c.agent.value;
        if agent.team == owner {
          return;
        }
        if agent.invincible {
          return;
        }
        hasHit := true;
        hit := Some(Hit(damage, owner));
      }
    }
  }
}
