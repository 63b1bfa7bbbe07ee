/** The designer-facing configuration of shots and bullets (BulletData,
    BulletChangeStep, BulletStartupEffect, ShotData, AttackPattern). These are
    plain records; only the fields the game logic reads are kept. */
module BulletConfig {
  import opened Common

  /** A Vector3 used as a scale; a zero scale means "keep the current one". */
  datatype Vec3 = Vec3(x: real, y: real, z: real)

  /** spanData: a base value, an accumulation rate and an upper limit. */
  datatype SpanData = SpanData(default_: real, accuracy_: real, max_: real)

  /** NWayExpandSettings: per burst step, extra bullets and extra spread. */
  datatype NWayExpand = NWayExpand(countAdd: int, spreadAdd: real)

  datatype PatternType = Single | NWay | AllDirections | RandomGap | NoPattern

  datatype AngleType = Fixed | AimAtPlayer | RandomAngle

  datatype FireType = Instant | OnRelease

  datatype SizeCategory = Large | Middle | Small

  datatype ColliderShape = Circle | Capsule | Cross

  /** The kind of skill a slot holds; Fire only knows the first three. */
  datatype SkillType = Normal | MagicCircle | RemoteBarrage | Dodge | Assault

  datatype StartupType = NoStartup | RotateX | RotateY | RotateZ | MoveX | MoveY | ScaleUp

  /** BulletStartupEffect: an appear/disappear animation over durationFrames. */
  datatype StartupEffect = StartupEffect(kind: StartupType, startValue: real, endValue: real,
                                         durationFrames: int)

  /** BulletChangeStep: a scheduled change of a bullet's shape and trajectory.
      A radius of -1 and a zero scale mean "unchanged". */
  datatype ChangeStep = ChangeStep(
    triggerFrame: int,
    newColliderRadius: real,
    newScale: Vec3,
    changeTrajectory: bool,
    newSpeed: real,
    newSpeedAcc: real,
    newAngleOffset: real,
    isAbsoluteAngle: bool)

  /** BulletData (the ScriptableObject describing one kind of bullet). */
  datatype BulletData = BulletData(
    sizeCategory: SizeCategory,
    hasDeathEffect: bool,     // deathEffectPrefab != null
    damage: int,
    useLaunchDelayEffect: bool,
    colliderShape: ColliderShape,
    colliderRadius: real,
    localScale: Vec3,
    startupEffect: StartupEffect,
    spawnSubBullets: bool,
    subShotData: Option<ShotData>,
    spawnIntervalFrames: int,
    bulletLifespan: real,
    isContinuousHit: bool,
    changeSteps: seq<ChangeStep>)

  /** ShotData: how one shot lays out its bullets. */
  datatype ShotData = ShotData(
    bulletType: Option<BulletData>,
    pattern: PatternType,
    angleType: AngleType,
    fixedAngle: real,
    nWayCount: int,
    nWaySpread: real,
    roundCount: int,
    speedCount: int,
    speedMax: real,
    nWayExpand: Option<NWayExpand>,
    rotationPerStep: real,
    useEvenOffset: bool,
    gapWidth: real,
    speedData: SpanData,
    angleAccData: SpanData,
    launchDelay: int,
    launchSpeedJitter: real,
    launchAngleJitter: real,
    spawnRadius: real)

  /** AttackPattern: one skill slot's configuration. */
  datatype AttackPattern = AttackPattern(
    multiShotData: seq<ShotData>,
    recastTime: real,
    burstCount: int,
    burstInterval: real,
    fireType: FireType,
    isAutoRepeat: bool,
    firingSpeedMultiplier: real,
    skillType: SkillType)
}
