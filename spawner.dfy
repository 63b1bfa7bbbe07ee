/** BulletSpawner: four skill slots driven by input edges (UpdateInputState)
    and per-frame timers (Update). A slot goes Idle -> (Charging) -> Bursting ->
    Recast. The parallel per-slot arrays of the source (recastTimers,
    burstRemain, burstIntervalTimers, isFiringBurst, isCharging, isInputHeld,
    holdTimers, currentFanAngles, isLaunchedBurst) are held as one array of
    per-slot records. */
module Spawner {
  import opened Common
  import opened BulletConfig
  import opened Patterns
  import Pool

  const SlotCount: nat := 4
  /** The narrowest fan a charging slot shrinks to. */
  const MinFanAngle: real := 10.0
  const ShrinkSpeed: real := 200.0
  const ExpandSpeed: real := 400.0
  const LongPressThreshold: real := 0.3
  /** Random.Range(-1.5, 1.5) on each axis around the target of a remote barrage. */
  const RemoteJitter: real := 1.5
  /** With no target a remote barrage lands 7 units along transform.right. */
  const RemoteFallbackDistance: real := 7.0
  /** A launched magic circle flies at 10 units/s. */
  const LaunchedCircleSpeed: real := 10.0

  /** The state of one slot, field by field the source's parallel arrays. */
  datatype Slot = Slot(
    recast: real,     // recastTimers
    remain: int,      // burstRemain
    interval: real,   // burstIntervalTimers
    firing: bool,     // isFiringBurst
    charging: bool,   // isCharging
    held: bool,       // isInputHeld
    hold: real,       // holdTimers
    fan: real,        // currentFanAngles
    launched: bool)   // isLaunchedBurst

  /** What one Fire hands to the rest of the game. */
  datatype Emission =
    | Spawn(req: SpawnRequest)
      /** SpawnMagicCircleBurst: a launched circle flies horizontally at
          velocityX and is activated with radius 2.0; an unlaunched one stays
          parented to the spawner with radius 2.5; both last 4 s. */
    | CircleBurst(slot: nat, launched: bool, velocityX: real, radius: real, duration: real)
      /** SpawnRemoteBarrageBurst: a circle launched toward dest carrying the
          slot's shots. */
    | RemoteBurst(slot: nat, dest: Vec, shots: seq<ShotData>)

  /** The spawner's surroundings that a Fire reads: math, target and random
      tape (env), transform.position, transform.right and the team. */
  datatype Ctx = Ctx(env: ShotEnv, origin: Vec, right: Vec, team: TeamSide)

  /** A slot after a step, what it emitted, and the next tape position. */
  datatype Fired = Fired(slot: Slot, out: seq<Emission>, cursor: nat)

  /** The slot invariant: a bursting slot has shots left but has fired at
      least once; an idle slot has none; a slot never charges while bursting;
      only a Normal-kind OnRelease slot charges, and only after its recast. */
  predicate SlotOk(p: AttackPattern, s: Slot)
  {
    (s.firing ==> 0 < s.remain < p.burstCount) &&
    (!s.firing ==> s.remain == 0) &&
    (s.charging ==> !s.firing && s.recast <= 0.0 && p.fireType == OnRelease &&
                    p.skillType != MagicCircle && p.skillType != RemoteBarrage)
  }

  /** The fan angle a slot starts with: the first shot's nWaySpread. */
  function InitialFan(p: Option<AttackPattern>): real
  {
    if p.Some? && |p.value.multiShotData| > 0 then p.value.multiShotData[0].nWaySpread else 0.0
  }

  function InitialSlot(p: Option<AttackPattern>): (r: Slot)
    ensures p.Some? ==> SlotOk(p.value, r)
  {
    Slot(0.0, 0, 0.0, false, false, false, 0.0, InitialFan(p), false)
  }

  /** The burst step the next Fire uses: burstCount - burstRemain. */
  function NextStep(p: AttackPattern, s: Slot): int
  {
    p.burstCount - s.remain
  }

  /** StopBurstAndStartRecast */
  function StopSlot(p: AttackPattern, s: Slot): (r: Slot)
    ensures SlotOk(p, r)
  {
    s.(firing := false, charging := false, remain := 0, recast := p.recastTime)
  }

  /** The requests of ExecuteShot for each shot of a Normal skill, in order. */
  function ShotsFrom(env: ShotEnv, shots: seq<ShotData>, k: nat, step: int, fan: real, origin: Vec,
                     team: TeamSide, cur: nat): (r: Shot)
    decreases |shots| - k
    ensures forall q :: q in r.reqs ==> q.team == team
  {
    if k >= |shots| then Shot([], cur)
    else
      var first := ShotRequests(env, shots[k], step, fan, origin, team, cur);
      var rest := ShotsFrom(env, shots, k + 1, step, fan, origin, team, first.cursor);
      Shot(first.reqs + rest.reqs, rest.cursor)
  }

  function Spawns(reqs: seq<SpawnRequest>): (r: seq<Emission>)
    ensures |r| == |reqs|
    ensures forall k :: 0 <= k < |r| ==> r[k] == Spawn(reqs[k])
  {
    seq(|reqs|, k requires 0 <= k < |reqs| => Spawn(reqs[k]))
  }

  /** transform.right.x >= 0 ? 1 : -1 unless the target is to the right. */
  function CircleDirection(ctx: Ctx): (r: real)
    ensures r == 1.0 || r == -1.0
    ensures ctx.env.target.Some? && ctx.env.target.value.x > ctx.origin.x ==> r == 1.0
  {
    if ctx.env.target.Some? && ctx.env.target.value.x > ctx.origin.x then 1.0
    else if ctx.right.x >= 0.0 then 1.0 else -1.0
  }

  /** What Fire emits for slot i, by skill kind; Dodge and Assault emit nothing. */
  function FireEmissions(ctx: Ctx, p: AttackPattern, i: nat, s: Slot, cur: nat): (r: (seq<Emission>, nat))
    ensures p.skillType == Normal ==> r.1 >= cur
    ensures p.skillType == MagicCircle ==> r.1 == cur && |r.0| == 1 && r.0[0].CircleBurst?
    ensures p.skillType == RemoteBarrage ==> r.1 == cur + 2 && |r.0| == 1 && r.0[0].RemoteBurst?
    ensures p.skillType == Dodge || p.skillType == Assault ==> r == ([], cur)
  {
    match p.skillType
    case Normal =>
      var shot := ShotsFrom(ctx.env, p.multiShotData, 0, NextStep(p, s), s.fan, ctx.origin, ctx.team, cur);
      ShotsCursorMonotone(ctx.env, p.multiShotData, 0, NextStep(p, s), s.fan, ctx.origin, ctx.team, cur);
      (Spawns(shot.reqs), shot.cursor)
    case MagicCircle =>
      if s.launched then
        ([CircleBurst(i, true, CircleDirection(ctx) * LaunchedCircleSpeed, 2.0, 4.0)], cur)
      else ([CircleBurst(i, false, 0.0, 2.5, 4.0)], cur)
    case RemoteBarrage =>
      var jitter := Vec(RangeDraw(-RemoteJitter, RemoteJitter, ctx.env.tape(cur)),
                        RangeDraw(-RemoteJitter, RemoteJitter, ctx.env.tape(cur + 1)));
      var dest := if ctx.env.target.Some? then ctx.env.target.value.Plus(jitter)
                  else ctx.origin.Plus(ctx.right.Scale(RemoteFallbackDistance));
      ([RemoteBurst(i, dest, p.multiShotData)], cur + 2)
    case Dodge => ([], cur)
    case Assault => ([], cur)
  }

  lemma {:induction false} ShotsCursorMonotone(env: ShotEnv, shots: seq<ShotData>, k: nat, step: int, fan: real,
                                               origin: Vec, team: TeamSide, cur: nat)
    ensures ShotsFrom(env, shots, k, step, fan, origin, team, cur).cursor >= cur
    decreases |shots| - k
  {
    if k < |shots| {
      var first := ShotRequests(env, shots[k], step, fan, origin, team, cur);
      ShotCursorMonotone(env, shots[k], step, fan, origin, team, cur);
      ShotsCursorMonotone(env, shots, k + 1, step, fan, origin, team, first.cursor);
    }
  }

  /** A shot never moves the random tape backwards. */
  lemma ShotCursorMonotone(env: ShotEnv, data: ShotData, step: int, fan: real, origin: Vec, team: TeamSide, cur: nat)
    ensures ShotRequests(env, data, step, fan, origin, team, cur).cursor >= cur
  {
    if data.bulletType.Some? && data.pattern == RandomGap {
      RandomGapShotProperties(env, ShotCall(data, data.bulletType.value, origin, team), cur);
    }
  }

  /** Fire: emit at step burstCount - burstRemain, count the shot down, then
      either wait burstInterval for the next one or stop and start the recast. */
  function FireSlot(ctx: Ctx, p: AttackPattern, i: nat, s: Slot, cur: nat): (r: Fired)
    ensures s.remain > 1 ==> r.slot.firing == s.firing && r.slot.charging == s.charging &&
                             r.slot.remain == s.remain - 1 && r.slot.interval == p.burstInterval &&
                             r.slot.recast == s.recast && NextStep(p, r.slot) == NextStep(p, s) + 1
    ensures s.remain <= 1 ==> r.slot == StopSlot(p, s)
    ensures r.slot.fan == s.fan && r.slot.held == s.held && r.slot.hold == s.hold
  {
    var (out, c) := FireEmissions(ctx, p, i, s, cur);
    var s1 := s.(remain := s.remain - 1);
    Fired(if s1.remain > 0 then s1.(interval := p.burstInterval) else StopSlot(p, s1), out, c)
  }

  /** StartBurst: mark firing, load burstCount shots and fire the first one at once. */
  function StartBurstSlot(ctx: Ctx, p: AttackPattern, i: nat, s: Slot, cur: nat): (r: Fired)
    ensures r.out == FireEmissions(ctx, p, i, s.(firing := true, remain := p.burstCount), cur).0
    ensures r.slot.firing ==> r.slot.remain == p.burstCount - 1 && NextStep(p, r.slot) == 1
    ensures !r.slot.firing ==> r.slot.recast == p.recastTime && r.slot.remain == 0
    ensures !s.charging ==> SlotOk(p, r.slot)
  {
    FireSlot(ctx, p, i, s.(firing := true, remain := p.burstCount), cur)
  }

  /** UpdateFanAngleValues: a charging slot narrows toward 10 degrees at
      shrinkSpeed, an idle one widens back toward the first shot's nWaySpread
      at expandSpeed, and a bursting one keeps its fan. */
  function FanSlot(p: AttackPattern, s: Slot, dt: real): (r: Slot)
    ensures r == s.(fan := r.fan)
    ensures |p.multiShotData| == 0 || (s.firing && !s.charging) ==> r.fan == s.fan
    ensures |p.multiShotData| > 0 && s.charging && dt >= 0.0 ==>
              Abs(MinFanAngle - r.fan) <= Abs(MinFanAngle - s.fan) &&
              (Abs(MinFanAngle - s.fan) <= ShrinkSpeed * dt ==> r.fan == MinFanAngle)
    ensures |p.multiShotData| > 0 && !s.charging && !s.firing && dt >= 0.0 ==>
              var target := p.multiShotData[0].nWaySpread;
              Abs(target - r.fan) <= Abs(target - s.fan) &&
              (Abs(target - s.fan) <= ExpandSpeed * dt ==> r.fan == target)
  {
    if |p.multiShotData| == 0 then s
    else
      var maxAngle := p.multiShotData[0].nWaySpread;
      if s.charging then s.(fan := MoveTowards(s.fan, MinFanAngle, ShrinkSpeed * dt))
      else if !s.firing then s.(fan := MoveTowards(s.fan, maxAngle, ExpandSpeed * dt))
      else s
  }

  /** The body of Update's loop for slot i. */
  function TickSlot(ctx: Ctx, p: AttackPattern, i: nat, s: Slot, dt: real, cur: nat): (r: Fired)
  {
    var s1 := if s.recast > 0.0 then s.(recast := s.recast - dt) else s;
    var s2 := FanSlot(p, s1, dt);
    if !s2.firing then Fired(s2, [], cur)
    else if p.fireType == Instant && !s2.held then Fired(StopSlot(p, s2), [], cur)
    else
      var s3 := s2.(interval := s2.interval - dt);
      if s3.interval <= 0.0 then FireSlot(ctx, p, i, s3, cur) else Fired(s3, [], cur)
  }

  /** The body of UpdateInputState's loop for slot i; pressed is attackAction == i + 1. */
  function InputSlot(ctx: Ctx, p: AttackPattern, i: nat, s: Slot, pressed: bool, dt: real, cur: nat): (r: Fired)
    ensures r.slot.held == pressed
  {
    var was := s.held;
    var f :=
      match p.skillType
      case MagicCircle =>
        var s1 := if pressed then s.(hold := s.hold + dt) else s;
        if !pressed && was && s1.recast <= 0.0 && !s1.firing then
          var b := StartBurstSlot(ctx, p, i, s1.(launched := s1.hold >= LongPressThreshold), cur);
          Fired(b.slot.(hold := 0.0), b.out, b.cursor)
        else Fired(s1, [], cur)
      case RemoteBarrage =>
        if pressed && !was && s.recast <= 0.0 && !s.firing then StartBurstSlot(ctx, p, i, s, cur)
        else Fired(s, [], cur)
      case _ =>
        var a :=
          if pressed then
            var trigger := !was || (p.isAutoRepeat && s.recast <= 0.0 && !s.firing);
            if trigger && s.recast <= 0.0 && !s.firing && !s.charging then
              if p.fireType == Instant then StartBurstSlot(ctx, p, i, s, cur)
              else Fired(s.(charging := true), [], cur)
            else Fired(s, [], cur)
          else Fired(s, [], cur);
        if !pressed && was then
          if p.fireType == OnRelease && a.slot.charging then
            var b := StartBurstSlot(ctx, p, i, a.slot.(charging := false), a.cursor);
            Fired(b.slot.(charging := false), a.out + b.out, b.cursor)
          else Fired(a.slot.(charging := false), a.out, a.cursor)
        else a;
    Fired(f.slot.(held := pressed), f.out, f.cursor)
  }

  /** Update and UpdateInputState keep every configured slot consistent. */
  lemma {:induction false} TickKeepsSlotOk(ctx: Ctx, p: AttackPattern, i: nat, s: Slot, dt: real, cur: nat)
    requires SlotOk(p, s) && dt >= 0.0
    ensures SlotOk(p, TickSlot(ctx, p, i, s, dt, cur).slot)
  {
    var s1 := if s.recast > 0.0 then s.(recast := s.recast - dt) else s;
    assert SlotOk(p, s1);
    var s2 := FanSlot(p, s1, dt);
    assert SlotOk(p, s2);
  }

  lemma InputKeepsSlotOk(ctx: Ctx, p: AttackPattern, i: nat, s: Slot, pressed: bool, dt: real, cur: nat)
    requires SlotOk(p, s)
    ensures SlotOk(p, InputSlot(ctx, p, i, s, pressed, dt, cur).slot)
  {
  }

  /** Recast gating: a slot still in recast, or already bursting, ignores its
      input apart from the held flag, hold timer and (on release) charging;
      it fires nothing and draws nothing. */
  lemma InputGatedByRecast(ctx: Ctx, p: AttackPattern, i: nat, s: Slot, pressed: bool, dt: real, cur: nat)
    requires SlotOk(p, s)
    requires s.recast > 0.0 || s.firing
    ensures var r := InputSlot(ctx, p, i, s, pressed, dt, cur);
            r.out == [] && r.cursor == cur &&
            r.slot.firing == s.firing && r.slot.remain == s.remain && r.slot.recast == s.recast &&
            r.slot.interval == s.interval && !r.slot.charging
  {
  }

  /** A Normal press edge after the recast starts a burst (Instant) or begins
      charging (OnRelease), only if the slot is neither bursting nor charging. */
  lemma PressEdgeStartsOrCharges(ctx: Ctx, p: AttackPattern, i: nat, s: Slot, dt: real, cur: nat)
    requires SlotOk(p, s)
    requires p.skillType != MagicCircle && p.skillType != RemoteBarrage
    requires !s.held && s.recast <= 0.0 && !s.firing && !s.charging
    ensures var r := InputSlot(ctx, p, i, s, true, dt, cur);
            (p.fireType == Instant ==> r.out == FireEmissions(ctx, p, i, s.(firing := true, remain := p.burstCount), cur).0) &&
            (p.fireType == OnRelease ==> r.out == [] && r.slot.charging && r.cursor == cur)
  {
  }

  /** Every Normal release edge leaves the slot not charging; releasing a
      charging OnRelease slot starts exactly one burst. */
  lemma ReleaseEdgeEndsCharging(ctx: Ctx, p: AttackPattern, i: nat, s: Slot, dt: real, cur: nat)
    requires SlotOk(p, s)
    requires p.skillType != MagicCircle && p.skillType != RemoteBarrage
    requires s.held
    ensures var r := InputSlot(ctx, p, i, s, false, dt, cur);
            !r.slot.charging &&
            (s.charging ==> r.out == FireEmissions(ctx, p, i, s.(charging := false, firing := true, remain := p.burstCount), cur).0) &&
            (!s.charging ==> r.out == [] && r.cursor == cur)
  {
  }

  /** An Instant burst ends as soon as its key is no longer held: Update stops
      the slot and starts the recast without firing. */
  lemma InstantReleaseStops(ctx: Ctx, p: AttackPattern, i: nat, s: Slot, dt: real, cur: nat)
    requires SlotOk(p, s) && s.firing && !s.held && p.fireType == Instant
    ensures var r := TickSlot(ctx, p, i, s, dt, cur);
            r.out == [] && !r.slot.firing && !r.slot.charging && r.slot.remain == 0 &&
            r.slot.recast == p.recastTime
  {
  }

  /** While a slot bursts its fan angle does not move. */
  lemma BurstKeepsFan(ctx: Ctx, p: AttackPattern, i: nat, s: Slot, dt: real, cur: nat)
    requires SlotOk(p, s) && s.firing
    ensures TickSlot(ctx, p, i, s, dt, cur).slot.fan == s.fan
  {
  }

  /** Update over slots k.. of the array, given the slots so far. */
  function UpdateFrom(ctx: Ctx, pats: seq<Option<AttackPattern>>, slots: seq<Slot>, dt: real, k: nat, cur: nat): (r: (seq<Slot>, seq<Emission>, nat))
    requires |slots| == |pats|
    ensures |r.0| == |slots|
    ensures forall j :: 0 <= j < k && j < |slots| ==> r.0[j] == slots[j]
    decreases |slots| - k
  {
    if k >= |slots| then (slots, [], cur)
    else if pats[k].None? then UpdateFrom(ctx, pats, slots, dt, k + 1, cur)
    else
      var f := TickSlot(ctx, pats[k].value, k, slots[k], dt, cur);
      var rest := UpdateFrom(ctx, pats, slots[k := f.slot], dt, k + 1, f.cursor);
      (rest.0, f.out + rest.1, rest.2)
  }

  /** UpdateInputState over slots k.. of the array. */
  function InputFrom(ctx: Ctx, pats: seq<Option<AttackPattern>>, slots: seq<Slot>, action: int, dt: real, k: nat, cur: nat): (r: (seq<Slot>, seq<Emission>, nat))
    requires |slots| == |pats|
    ensures |r.0| == |slots|
    ensures forall j :: 0 <= j < k && j < |slots| ==> r.0[j] == slots[j]
    decreases |slots| - k
  {
    if k >= |slots| then (slots, [], cur)
    else if pats[k].None? then InputFrom(ctx, pats, slots, action, dt, k + 1, cur)
    else
      var f := InputSlot(ctx, pats[k].value, k, slots[k], action == k + 1, dt, cur);
      var rest := InputFrom(ctx, pats, slots[k := f.slot], action, dt, k + 1, f.cursor);
      (rest.0, f.out + rest.1, rest.2)
  }

  /** Update has done slots 0..k-1: what is left to do, after what is done,
      gives the whole of UpdateFrom. */
  ghost predicate UpdateProgress(ctx: Ctx, pats: seq<Option<AttackPattern>>, slots: seq<Slot>, dt: real, k: nat,
                                 cur: nat, done: seq<Emission>, goal: (seq<Slot>, seq<Emission>, nat))
  {
    |slots| == |pats| &&
    var rest := UpdateFrom(ctx, pats, slots, dt, k, cur);
    (rest.0, done + rest.1, rest.2) == goal
  }

  lemma UpdateAdvance(ctx: Ctx, pats: seq<Option<AttackPattern>>, slots: seq<Slot>, dt: real, k: nat,
                      cur: nat, done: seq<Emission>, goal: (seq<Slot>, seq<Emission>, nat))
    requires k < |slots| && UpdateProgress(ctx, pats, slots, dt, k, cur, done, goal)
    ensures pats[k].None? ==> UpdateProgress(ctx, pats, slots, dt, k + 1, cur, done, goal)
    ensures pats[k].Some? ==>
              var f := TickSlot(ctx, pats[k].value, k, slots[k], dt, cur);
              UpdateProgress(ctx, pats, slots[k := f.slot], dt, k + 1, f.cursor, done + f.out, goal)
  {
    if pats[k].Some? {
      var f := TickSlot(ctx, pats[k].value, k, slots[k], dt, cur);
      var rest := UpdateFrom(ctx, pats, slots[k := f.slot], dt, k + 1, f.cursor);
      assert done + (f.out + rest.1) == (done + f.out) + rest.1;
    }
  }

  /** The same for UpdateInputState. */
  ghost predicate InputProgress(ctx: Ctx, pats: seq<Option<AttackPattern>>, slots: seq<Slot>, action: int, dt: real,
                                k: nat, cur: nat, done: seq<Emission>, goal: (seq<Slot>, seq<Emission>, nat))
  {
    |slots| == |pats| &&
    var rest := InputFrom(ctx, pats, slots, action, dt, k, cur);
    (rest.0, done + rest.1, rest.2) == goal
  }

  lemma InputAdvance(ctx: Ctx, pats: seq<Option<AttackPattern>>, slots: seq<Slot>, action: int, dt: real, k: nat,
                     cur: nat, done: seq<Emission>, goal: (seq<Slot>, seq<Emission>, nat))
    requires k < |slots| && InputProgress(ctx, pats, slots, action, dt, k, cur, done, goal)
    ensures pats[k].None? ==> InputProgress(ctx, pats, slots, action, dt, k + 1, cur, done, goal)
    ensures pats[k].Some? ==>
              var f := InputSlot(ctx, pats[k].value, k, slots[k], action == k + 1, dt, cur);
              InputProgress(ctx, pats, slots[k := f.slot], action, dt, k + 1, f.cursor, done + f.out, goal)
  {
    if pats[k].Some? {
      var f := InputSlot(ctx, pats[k].value, k, slots[k], action == k + 1, dt, cur);
      var rest := InputFrom(ctx, pats, slots[k := f.slot], action, dt, k + 1, f.cursor);
      assert done + (f.out + rest.1) == (done + f.out) + rest.1;
    }
  }

  /** Every configured slot satisfies the slot invariant. */
  ghost predicate AllSlotsOk(pats: seq<Option<AttackPattern>>, slots: seq<Slot>)
  {
    |slots| == |pats| && forall j :: 0 <= j < |slots| && pats[j].Some? ==> SlotOk(pats[j].value, slots[j])
  }

  lemma {:induction false} UpdateFromKeepsSlotsOk(ctx: Ctx, pats: seq<Option<AttackPattern>>, slots: seq<Slot>, dt: real, k: nat, cur: nat)
    requires AllSlotsOk(pats, slots) && dt >= 0.0
    ensures AllSlotsOk(pats, UpdateFrom(ctx, pats, slots, dt, k, cur).0)
    decreases |slots| - k
  {
    if k < |slots| {
      if pats[k].None? {
        UpdateFromKeepsSlotsOk(ctx, pats, slots, dt, k + 1, cur);
      } else {
        var f := TickSlot(ctx, pats[k].value, k, slots[k], dt, cur);
        TickKeepsSlotOk(ctx, pats[k].value, k, slots[k], dt, cur);
        UpdateFromKeepsSlotsOk(ctx, pats, slots[k := f.slot], dt, k + 1, f.cursor);
      }
    }
  }

  lemma {:induction false} InputFromKeepsSlotsOk(ctx: Ctx, pats: seq<Option<AttackPattern>>, slots: seq<Slot>, action: int, dt: real, k: nat, cur: nat)
    requires AllSlotsOk(pats, slots)
    ensures AllSlotsOk(pats, InputFrom(ctx, pats, slots, action, dt, k, cur).0)
    decreases |slots| - k
  {
    if k < |slots| {
      if pats[k].None? {
        InputFromKeepsSlotsOk(ctx, pats, slots, action, dt, k + 1, cur);
      } else {
        var f := InputSlot(ctx, pats[k].value, k, slots[k], action == k + 1, dt, cur);
        InputKeepsSlotOk(ctx, pats[k].value, k, slots[k], action == k + 1, dt, cur);
        InputFromKeepsSlotsOk(ctx, pats, slots[k := f.slot], action, dt, k + 1, f.cursor);
      }
    }
  }

  /** GetFanAngleProgress from a slot's pattern and fan: 0 for an unconfigured
      slot or one without shots; otherwise how far the fan has narrowed from
      the first shot's nWaySpread toward 10 degrees, clamped to [0,1]. */
  function FanProgress(p: Option<AttackPattern>, fan: real): (r: real)
    ensures 0.0 <= r <= 1.0
    ensures p.None? || |p.value.multiShotData| == 0 ==> r == 0.0
    ensures p.Some? && |p.value.multiShotData| > 0 && p.value.multiShotData[0].nWaySpread > MinFanAngle ==>
              (fan == p.value.multiShotData[0].nWaySpread ==> r == 0.0) && (fan <= MinFanAngle ==> r == 1.0)
  {
    if p.None? || |p.value.multiShotData| == 0 then 0.0
    else
      var max := p.value.multiShotData[0].nWaySpread;
      if max == MinFanAngle then (if fan < max then 1.0 else 0.0)
      else
        if fan <= MinFanAngle && max > MinFanAngle then
          DivAtLeastOne(max - fan, max - MinFanAngle);
          Clamp01((max - fan) / (max - MinFanAngle))
        else Clamp01((max - fan) / (max - MinFanAngle))
  }

  /** GetRecastProgress: the share of the recast still to run, in [0,1]; 0 for
      an unconfigured slot or a non-positive recastTime. */
  function RecastProgress(p: Option<AttackPattern>, recast: real): (r: real)
    ensures 0.0 <= r <= 1.0
    ensures p.None? || p.value.recastTime <= 0.0 || recast <= 0.0 ==> r == 0.0
    ensures p.Some? && p.value.recastTime > 0.0 && recast >= p.value.recastTime ==> r == 1.0
  {
    if p.None? || p.value.recastTime <= 0.0 then 0.0
    else
      var q := recast / p.value.recastTime;
      if recast <= 0.0 then
        DivNonPositive(recast, p.value.recastTime);
        Clamp01(q)
      else if recast >= p.value.recastTime then
        DivAtLeastOne(recast, p.value.recastTime);
        Clamp01(q)
      else Clamp01(q)
  }

  lemma DivNonPositive(a: real, b: real)
    requires a <= 0.0 && b > 0.0
    ensures a / b <= 0.0
  {
    if a < 0.0 {
      PositiveFactor(-(a / b), b, -a);
    }
  }

  lemma DivAtLeastOne(a: real, b: real)
    requires a >= b > 0.0
    ensures a / b >= 1.0
  {
    if a > b {
      PositiveFactor(a / b - 1.0, b, a - b);
    }
  }

  /** The slower movement multiplier of the bursting or charging slots among
      the first k, starting from 1. */
  function SpeedMultiplierOf(pats: seq<Option<AttackPattern>>, slots: seq<Slot>, k: nat): (r: real)
    requires k <= |pats| && k <= |slots|
    ensures r <= 1.0
    ensures (forall j :: 0 <= j < k ==> !slots[j].firing && !slots[j].charging) ==> r == 1.0
    ensures forall j :: 0 <= j < k && (slots[j].firing || slots[j].charging) && pats[j].Some? ==>
              r <= pats[j].value.firingSpeedMultiplier
    ensures r == 1.0 || (exists j :: 0 <= j < k && (slots[j].firing || slots[j].charging) && pats[j].Some? &&
                                    r == pats[j].value.firingSpeedMultiplier)
  {
    if k == 0 then 1.0
    else
      var prev := SpeedMultiplierOf(pats, slots, k - 1);
      if (slots[k - 1].firing || slots[k - 1].charging) && pats[k - 1].Some? then
        Min(prev, pats[k - 1].value.firingSpeedMultiplier)
      else prev
  }

  /** The band each size category's draw-order counter stays in. */
  function BandStart(c: SizeCategory): int
  {
    match c
    case Large => 1000
    case Middle => 6000
    case Small => 11000
  }

  function BandEnd(c: SizeCategory): int
  {
    BandStart(c) + 4999
  }

  /** GetNextOrder on one counter: wrap to the band start at the band top,
      otherwise count up by one. */
  function NextOrder(c: SizeCategory, counter: int): (r: int)
    ensures BandStart(c) <= counter <= BandEnd(c) ==> BandStart(c) <= r <= BandEnd(c)
    ensures counter < BandEnd(c) ==> r == counter + 1
    ensures counter >= BandEnd(c) ==> r == BandStart(c)
  {
    if counter >= BandEnd(c) then BandStart(c) else counter + 1
  }

  /** Inside its band a counter climbs by one per draw: n draws that stay below
      the band's end advance it by exactly n. */
  lemma {:induction false} OrderAdvancesInBand(c: SizeCategory, counter: int, n: nat)
    requires BandStart(c) <= counter <= BandEnd(c)
    requires n <= BandEnd(c) - counter
    ensures Iterate(c, counter, n) == counter + n
  {
    if n > 0 {
      OrderAdvancesInBand(c, counter, n - 1);
    }
  }

  function Iterate(c: SizeCategory, counter: int, n: nat): int
  {
    if n == 0 then counter else NextOrder(c, Iterate(c, counter, n - 1))
  }

  /** The static order counters of BulletSpawner, shared by all spawners. */
  class OrderCounters {
    var large: int
    var middle: int
    var small: int

    ghost predicate Valid()
      reads this
    {
      BandStart(Large) <= large <= BandEnd(Large) &&
      BandStart(Middle) <= middle <= BandEnd(Middle) &&
      BandStart(Small) <= small <= BandEnd(Small)
    }

    function Counter(c: SizeCategory): int
      reads this
    {
      match c
      case Large => large
      case Middle => middle
      case Small => small
    }

    constructor ()
      ensures Valid()
      ensures large == 1000 && middle == 6000 && small == 11000
    {
      large, middle, small := 1000, 6000, 11000;
    }

    /** GetNextOrder: advance the category's counter and return its new value. */
    method GetNextOrder(c: SizeCategory) returns (order: int)
      requires Valid()
      modifies this
      ensures Valid()
      ensures order == NextOrder(c, old(Counter(c))) && Counter(c) == order
      ensures BandStart(c) <= order <= BandEnd(c)
      ensures forall d :: d != c ==> Counter(d) == old(Counter(d))
    {
      match c
      case Large =>
        large := if large >= 5999 then 1000 else large + 1;
        order := large;
      case Middle =>
        middle := if middle >= 10999 then 6000 else middle + 1;
        order := middle;
      case Small =>
        small := if small >= 15999 then 11000 else small + 1;
        order := small;
    }
  }

  /** What SpawnFromPool does with a request: spawn it now, or after
      delayFrames / 60 seconds (DelayedSpawnRoutine). */
  datatype Dispatch = Now(req: SpawnRequest) | After(seconds: real, req: SpawnRequest)

  function SpawnFromPool(req: SpawnRequest): (r: Dispatch)
    ensures r.req == req
    ensures req.delayFrames <= 0 <==> r.Now?
    ensures r.After? ==> r.seconds > 0.0 && r.seconds * 60.0 == req.delayFrames as real
  {
    if req.delayFrames <= 0 then Now(req) else After(req.delayFrames as real / 60.0, req)
  }

  /** The arguments ExecuteActualSpawn passes to EnemyBullet.Setup. */
  datatype SetupArgs = SetupArgs(
    bullet: BulletData,
    pos: Vec,
    speed: real,
    speedAcc: real,
    maxSpeed: real,
    angle: real,
    angleAcc: real,
    maxAngleAcc: real,
    order: int,
    team: TeamSide)

  /** ExecuteActualSpawn: take an object from the pool and, when it carries an
      EnemyBullet component (`hasBullet`, GetComponent<EnemyBullet>() != null),
      draw its order and set it up; the speed limit is never below the launch
      speed. A pooled object without the component (a magic circle or an
      assault object returned to the pool) is left as it is: no order is
      drawn and no Setup runs. */
  method ExecuteActualSpawn(pool: Pool.BulletPool, counters: OrderCounters, req: SpawnRequest,
                            hasBullet: Pool.Obj -> bool)
    returns (obj: Pool.Obj, args: Option<SetupArgs>)
    requires pool.Valid() && counters.Valid()
    modifies pool, counters
    ensures pool.Valid() && counters.Valid()
    ensures (pool.State(), obj) == Pool.GetSpec(old(pool.State()))
    ensures args.Some? <==> hasBullet(obj)
    ensures args.None? ==> forall c :: counters.Counter(c) == old(counters.Counter(c))
    ensures args.Some? ==>
              var c := req.bullet.sizeCategory;
              var a := args.value;
              a.order == NextOrder(c, old(counters.Counter(c))) && a.order == counters.Counter(c) &&
              BandStart(c) <= a.order <= BandEnd(c) &&
              (forall d :: d != c ==> counters.Counter(d) == old(counters.Counter(d))) &&
              a.maxSpeed == Max(req.speedData.max_, req.speed) && a.maxSpeed >= a.speed &&
              a.speed == req.speed && a.angle == req.angle && a.pos == req.pos && a.team == req.team &&
              a.speedAcc == req.speedData.accuracy_ && a.angleAcc == req.angleAccData.accuracy_ &&
              a.maxAngleAcc == req.angleAccData.max_ && a.bullet == req.bullet
  {
    obj := pool.Get();
    if hasBullet(obj) {
      var order := counters.GetNextOrder(req.bullet.sizeCategory);
      var speedLimit := Max(req.speedData.max_, req.speed);
      args := Some(SetupArgs(req.bullet, req.pos, req.speed, req.speedData.accuracy_, speedLimit, req.angle,
                             req.angleAccData.accuracy_, req.angleAccData.max_, order, req.team));
    } else {
      args := None;
    }
  }

  class BulletSpawner {
    const team: TeamSide
    /** attackPatterns[0..3], from the character profile's shotZ, shotX, shotC, shotV. */
    const patterns: seq<Option<AttackPattern>>
    const trig: Trig
    const tape: Tape
    var position: Vec
    var right: Vec
    var target: Option<Vec>
    var cursor: nat
    const slots: array<Slot>

    ghost predicate Valid()
      reads this, slots
    {
      |patterns| == SlotCount && slots.Length == SlotCount && AllSlotsOk(patterns, slots[..])
    }

    function Context(): Ctx
      reads this
    {
      Ctx(ShotEnv(trig, target, tape), position, right, team)
    }

    /** Awake and Start: every slot idle with its first shot's spread as fan. */
    constructor (team: TeamSide, patterns: seq<Option<AttackPattern>>, trig: Trig, tape: Tape,
                 position: Vec, right: Vec, target: Option<Vec>)
      requires |patterns| == SlotCount
      ensures Valid() && fresh(slots)
      ensures this.team == team && this.patterns == patterns && this.trig == trig && this.tape == tape
      ensures this.position == position && this.right == right && this.target == target && cursor == 0
      ensures forall j :: 0 <= j < SlotCount ==> slots[j] == InitialSlot(patterns[j])
    {
      this.team := team;
      this.patterns := patterns;
      this.trig := trig;
      this.tape := tape;
      this.position := position;
      this.right := right;
      this.target := target;
      cursor := 0;
      slots := new Slot[SlotCount](j requires 0 <= j < SlotCount => InitialSlot(patterns[j]));
    }

    /** Update: for each configured slot, run the recast down, move the fan,
        and drive its burst. */
    method Update(dt: real) returns (out: seq<Emission>)
      requires Valid() && dt >= 0.0
      modifies slots, this`cursor
      ensures Valid()
      ensures (slots[..], out, cursor) == UpdateFrom(old(Context()), patterns, old(slots[..]), dt, 0, old(cursor))
    {
      var ctx := Context();
      ghost var goal := UpdateFrom(ctx, patterns, slots[..], dt, 0, cursor);
      assert [] + goal.1 == goal.1;
      UpdateFromKeepsSlotsOk(ctx, patterns, slots[..], dt, 0, cursor);
      out := [];
      var i := 0;
      while i < SlotCount
        invariant 0 <= i <= SlotCount
        invariant UpdateProgress(ctx, patterns, slots[..], dt, i, cursor, out, goal)
      {
        UpdateAdvance(ctx, patterns, slots[..], dt, i, cursor, out, goal);
        if patterns[i].Some? {
          var f := TickSlot(ctx, patterns[i].value, i, slots[i], dt, cursor);
          slots[i] := f.slot;
          out := out + f.out;
          cursor := f.cursor;
        }
        i := i + 1;
      }
      assert out + [] == out;
    }

    /** UpdateInputState(attackAction): slot i sees its key pressed exactly
        when attackAction == i + 1. */
    method UpdateInputState(action: int, dt: real) returns (out: seq<Emission>)
      requires Valid()
      modifies slots, this`cursor
      ensures Valid()
      ensures (slots[..], out, cursor) == InputFrom(old(Context()), patterns, old(slots[..]), action, dt, 0, old(cursor))
    {
      var ctx := Context();
      ghost var goal := InputFrom(ctx, patterns, slots[..], action, dt, 0, cursor);
      assert [] + goal.1 == goal.1;
      InputFromKeepsSlotsOk(ctx, patterns, slots[..], action, dt, 0, cursor);
      out := [];
      var i := 0;
      while i < SlotCount
        invariant 0 <= i <= SlotCount
        invariant InputProgress(ctx, patterns, slots[..], action, dt, i, cursor, out, goal)
      {
        InputAdvance(ctx, patterns, slots[..], action, dt, i, cursor, out, goal);
        if patterns[i].Some? {
          var f := InputSlot(ctx, patterns[i].value, i, slots[i], action == i + 1, dt, cursor);
          slots[i] := f.slot;
          out := out + f.out;
          cursor := f.cursor;
        }
        i := i + 1;
      }
      assert out + [] == out;
    }

    /** ExecuteShot as called from outside (sub-bullets, magic circles): the
        N-way layout reads the fan angle of slot skillIndex. */
    method ExecuteShotFor(data: ShotData, step: int, skillIndex: nat, origin: Vec, team: TeamSide)
      returns (reqs: seq<SpawnRequest>)
      requires Valid() && skillIndex < SlotCount
      modifies this`cursor
      ensures Shot(reqs, cursor) == ShotRequests(ShotEnv(trig, target, tape), data, step, slots[skillIndex].fan, origin, team, old(cursor))
    {
      var c;
      reqs, c := ExecuteShot(ShotEnv(trig, target, tape), data, step, slots[skillIndex].fan, origin, team, cursor);
      cursor := c;
    }

    method GetFanAngleProgress(index: int) returns (r: real)
      requires Valid()
      ensures 0.0 <= r <= 1.0
      ensures 0 <= index < SlotCount ==> r == FanProgress(patterns[index], slots[index].fan)
      ensures !(0 <= index < SlotCount) ==> r == 0.0
    {
      if index < 0 || index >= SlotCount as int {
        return 0.0;
      }
      r := FanProgress(patterns[index], slots[index].fan);
    }

    method GetRecastProgress(index: int) returns (r: real)
      requires Valid()
      ensures 0.0 <= r <= 1.0
      ensures 0 <= index < SlotCount ==> r == RecastProgress(patterns[index], slots[index].recast)
      ensures !(0 <= index < SlotCount) ==> r == 0.0
    {
      if index < 0 || index >= SlotCount as int {
        return 0.0;
      }
      r := RecastProgress(patterns[index], slots[index].recast);
    }

    /** GetRemainingRecastTime: never negative; 0 outside 0..3. */
    method GetRemainingRecastTime(index: int) returns (r: real)
      requires Valid()
      ensures r >= 0.0
      ensures 0 <= index < SlotCount && slots[index].recast > 0.0 ==> r == slots[index].recast
      ensures !(0 <= index < SlotCount) || slots[index].recast <= 0.0 ==> r == 0.0
    {
      if index < 0 || index >= SlotCount as int {
        return 0.0;
      }
      r := Max(0.0, slots[index].recast);
    }

    /** GetCurrentSpeedMultiplier: the minimum firingSpeedMultiplier over the
        slots that are bursting or charging, and 1 when there are none. */
    method GetCurrentSpeedMultiplier() returns (m: real)
      requires Valid()
      ensures m == SpeedMultiplierOf(patterns, slots[..], SlotCount)
      ensures m <= 1.0
      ensures (forall j :: 0 <= j < SlotCount ==> !slots[j].firing && !slots[j].charging) ==> m == 1.0
    {
      m := 1.0;
      var i := 0;
      while i < SlotCount
        invariant 0 <= i <= SlotCount
        invariant m == SpeedMultiplierOf(patterns, slots[..], i)
      {
        if (slots[i].firing || slots[i].charging) && patterns[i].Some? {
          m := Min(m, patterns[i].value.firingSpeedMultiplier);
        }
        i := i + 1;
      }
      assert forall j :: 0 <= j < SlotCount ==> slots[..][j] == slots[j];
    }
  }
}
