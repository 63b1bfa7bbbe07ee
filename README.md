# Bullet-hell arena: a verified model of the combat core

This project models the gameplay core of a two-player bullet-hell arena built with Unity and ML-Agents. Two dodger agents (Player1 and Player2) face each other across a centre line. Each fires patterned barrages from a bullet spawner, which draws bullets from a shared object pool. Bullets fly, animate in and out, and return to the pool.

Magic circles and assault objects are skill objects. They fire, home, travel, clear bullets or ram the opponent. A graze ring fills a special gauge, and a round timer ends the round. A bit container packs the save record into named bit fields.

Each source component is one module:

| module | component |
|---|---|
| `Spawner` | slots, bursts, recast, fan angle, draw-order counters |
| `Patterns` | shot layouts and the `ExecuteShot` dispatch |
| `Bullet` | `EnemyBullet` |
| `Pool` | `BulletPool` |
| `Circle` | `MagicCircle` |
| `Assault` | `AssaultObject` |
| `Dodger` | status side of `DodgerAgent` |
| `Health` | `PlayerHealth` |
| `Gauge` | `SpecialGaugeManager` |
| `Graze` | `GrazeDetector` |
| `Timer` | `GameTimerManager` |
| `Bits` | `BitContainer` |
| `BulletConfig` | data records |
| `Common` | shared math |

Components whose fields the game mutates are Dafny classes. Their methods are proved against specification functions on the component's state, and the lemmas beside those functions state the behaviour over many frames.

Unity's services appear in the model as follows:

- Engine math is a parameter: square root, trigonometry and `MoveTowards` of vectors are a `Trig` record of functions.
- `Random.Range` is a tape of draws read from a cursor.
- Game objects are ids. The pool tells the objects it instantiated apart from any other object of the scene handed to it.
- Frame time is an explicit `dt`.
- Each coroutine is a list of pending waits that the frame function runs down.
- Calls that one component makes on another are either results (request lists, events, shot orders) or direct method calls on the modelled class.

## Model

| member | source | states |
|---|---|---|
| Spawner.InitialSlot | Assets/ML-Agents/Shooting/Scripts/Enemy/BulletSpawner.cs:73-96 | A freshly started slot satisfies the slot invariant: it is idle, not charging, with no shots left and its fan at the first shot's spread. |
| Spawner.StopSlot | Assets/ML-Agents/Shooting/Scripts/Enemy/BulletSpawner.cs:392-398 | Stopping a burst always leaves a consistent, idle slot whose recast timer is the pattern's recastTime. |
| Spawner.FireSlot | Assets/ML-Agents/Shooting/Scripts/Enemy/BulletSpawner.cs:320-348 | A shot with more left counts down by one, waits burstInterval and advances the burst step by one. The last shot stops the burst and starts the recast. Fan, held flag and hold time are untouched. |
| Spawner.StartBurstSlot | Assets/ML-Agents/Shooting/Scripts/Enemy/BulletSpawner.cs:312-317 | Starting a burst fires its first shot at once, at step 0. The slot is left either bursting at step 1 with burstCount-1 shots left, or already in recast. |
| Spawner.FanSlot | Assets/ML-Agents/Shooting/Scripts/Enemy/BulletSpawner.cs:149-165 | Charging narrows the fan toward 10 degrees and idling widens it toward the first shot's spread, never overshooting. Either reaches its target once within one step. A bursting slot keeps its fan, and nothing but the fan changes. |
| Spawner.InputSlot | Assets/ML-Agents/Shooting/Scripts/Enemy/BulletSpawner.cs:178-236 | After the input step the slot's held flag equals whether its key is pressed this frame. |
| Spawner.TickKeepsSlotOk | Assets/ML-Agents/Shooting/Scripts/Enemy/BulletSpawner.cs:103-128 | One Update step of a slot preserves the slot invariant: a burst has shots left, an idle slot has none, and a slot never charges while bursting. |
| Spawner.InputKeepsSlotOk | Assets/ML-Agents/Shooting/Scripts/Enemy/BulletSpawner.cs:178-236 | The input step of a slot preserves the slot invariant, for every skill kind. |
| Spawner.InputGatedByRecast | Assets/ML-Agents/Shooting/Scripts/Enemy/BulletSpawner.cs:188-233 | While a slot is in recast or bursting, input fires nothing, draws no random number and changes neither the burst nor the recast. |
| Spawner.PressEdgeStartsOrCharges | Assets/ML-Agents/Shooting/Scripts/Enemy/BulletSpawner.cs:210-222 | A press edge on a ready Normal slot starts a burst (Instant) or begins charging without firing (OnRelease). |
| Spawner.ReleaseEdgeEndsCharging | Assets/ML-Agents/Shooting/Scripts/Enemy/BulletSpawner.cs:224-233 | Any release edge of a Normal slot ends charging. Releasing a charging OnRelease slot starts exactly one burst; otherwise nothing fires. |
| Spawner.InstantReleaseStops | Assets/ML-Agents/Shooting/Scripts/Enemy/BulletSpawner.cs:117-123 | An Instant burst whose key is no longer held stops without firing and starts its recast. |
| Spawner.BurstKeepsFan | Assets/ML-Agents/Shooting/Scripts/Enemy/BulletSpawner.cs:149-165 | The fan angle does not move during a burst. |
| Spawner.UpdateFrom | Assets/ML-Agents/Shooting/Scripts/Enemy/BulletSpawner.cs:103-128 | The Update loop over the slots keeps one slot per pattern. |
| Spawner.UpdateFromKeepsSlotsOk | Assets/ML-Agents/Shooting/Scripts/Enemy/BulletSpawner.cs:103-128 | The Update loop keeps every configured slot consistent. |
| Spawner.InputFromKeepsSlotsOk | Assets/ML-Agents/Shooting/Scripts/Enemy/BulletSpawner.cs:178-236 | The input loop keeps every configured slot consistent. |
| Spawner.FanProgress | Assets/ML-Agents/Shooting/Scripts/Enemy/BulletSpawner.cs:168-176 | Fan progress lies in [0,1]. It is 0 without a pattern or shots and 0 at the full spread, and it reaches 1 once the fan is at 10 degrees. |
| Spawner.RecastProgress | Assets/ML-Agents/Shooting/Scripts/Enemy/BulletSpawner.cs:678-682 | Recast progress lies in [0,1]. It is 0 for an unconfigured slot, a non-positive recastTime or a finished recast, and 1 at the start of a recast. |
| Spawner.SpeedMultiplierOf | Assets/ML-Agents/Shooting/Scripts/Enemy/BulletSpawner.cs:666-676 | The movement multiplier is min(1, the smallest firingSpeedMultiplier among the slots that are firing or charging). It is exactly 1 when no slot fires or charges. |
| Spawner.NextOrder | Assets/ML-Agents/Shooting/Scripts/Enemy/BulletSpawner.cs:621-636 | Each size category's draw order stays inside its own band and wraps to the band's start past its end. |
| Spawner.OrderAdvancesInBand | Assets/ML-Agents/Shooting/Scripts/Enemy/BulletSpawner.cs:621-636 | From a counter inside its band, n draws that do not pass the band's end advance it by exactly n. |
| Spawner.OrderCounters.constructor | Assets/ML-Agents/Shooting/Scripts/Enemy/BulletSpawner.cs:54-56 | The three static counters start at 1000, 6000 and 11000. |
| Spawner.OrderCounters.GetNextOrder | Assets/ML-Agents/Shooting/Scripts/Enemy/BulletSpawner.cs:621-636 | A draw returns the category's order, kept in its band; the other categories' counters do not change. |
| Spawner.SpawnFromPool | Assets/ML-Agents/Shooting/Scripts/Enemy/BulletSpawner.cs:560-602 | A request spawns now exactly when delayFrames ≤ 0. Otherwise it spawns after delayFrames/60 seconds. |
| Spawner.ExecuteActualSpawn | Assets/ML-Agents/Shooting/Scripts/Enemy/BulletSpawner.cs:603-619 | The object comes from the pool as Get promises, so it may be any object returned to the pool earlier. Setup arguments are built exactly when the object has an EnemyBullet component. Without one, no order is drawn and no counter changes. With one, the order is the next in its band and only that band's counter moves. The speed limit is max(max_, speed) and so never below the launch speed. All other arguments pass through unchanged. |
| Spawner.BulletSpawner.constructor | Assets/ML-Agents/Shooting/Scripts/Enemy/BulletSpawner.cs:73-96 | Start gives every slot its initial state and the invariant holds. |
| Spawner.BulletSpawner.Update | Assets/ML-Agents/Shooting/Scripts/Enemy/BulletSpawner.cs:98-128 | The imperative loop over the slot arrays computes exactly the Update fold and keeps the invariant. |
| Spawner.BulletSpawner.UpdateInputState | Assets/ML-Agents/Shooting/Scripts/Enemy/BulletSpawner.cs:178-236 | The imperative loop over the slot arrays computes exactly the input fold and keeps the invariant. |
| Spawner.BulletSpawner.ExecuteShotFor | Assets/ML-Agents/Shooting/Scripts/Enemy/BulletSpawner.cs:400-421 | A shot of slot i is the dispatch of Patterns.ShotRequests with the slot's fan and this spawner's team. |
| Spawner.BulletSpawner.GetFanAngleProgress | Assets/ML-Agents/Shooting/Scripts/Enemy/BulletSpawner.cs:168-176 | An index out of range gives 0; otherwise the slot's fan progress. |
| Spawner.BulletSpawner.GetRecastProgress | Assets/ML-Agents/Shooting/Scripts/Enemy/BulletSpawner.cs:678-682 | An index out of range gives 0; otherwise the slot's recast progress, in [0,1]. |
| Spawner.BulletSpawner.GetRemainingRecastTime | Assets/ML-Agents/Shooting/Scripts/Enemy/BulletSpawner.cs:684-688 | An index out of range or a finished recast gives 0; otherwise the slot's recast timer. The result is never negative. |
| Spawner.BulletSpawner.GetCurrentSpeedMultiplier | Assets/ML-Agents/Shooting/Scripts/Enemy/BulletSpawner.cs:666-676 | Equals SpeedMultiplierOf over all slots, hence at most 1. |
| Patterns.CalculateAngle | Assets/ML-Agents/Shooting/Scripts/Enemy/BulletSpawner.cs:638-655 | A Random angle consumes one draw and lies in [1, 360]. Fixed, and AimAtPlayer without a target, give fixedAngle without drawing. Aiming gives the angle toward the target. |
| Patterns.TierSpeed | Assets/ML-Agents/Shooting/Scripts/Enemy/BulletSpawner.cs:440-443 | With one layer every bullet has the default speed. With several, the first layer is at the default and the last at speedMax, and every layer lies between them. |
| Patterns.GridRow | Assets/ML-Agents/Shooting/Scripts/Enemy/BulletSpawner.cs:446-470 | A speed layer emits one request per loop iteration, all of the shot's team and bullet type. |
| Patterns.GridTiers | Assets/ML-Agents/Shooting/Scripts/Enemy/BulletSpawner.cs:438-471 | The first n layers emit n times the row count of requests. |
| Patterns.GridShot | Assets/ML-Agents/Shooting/Scripts/Enemy/BulletSpawner.cs:438-471 | A grid shot emits speedCount × count requests and consumes exactly two random draws per bullet. |
| Patterns.ShootGrid | Assets/ML-Agents/Shooting/Scripts/Enemy/BulletSpawner.cs:438-471 | The nested for-loops compute exactly GridShot. |
| Patterns.GridTiersAt | Assets/ML-Agents/Shooting/Scripts/Enemy/BulletSpawner.cs:438-471 | Request s·count + i of a grid is bullet i of speed layer s, built from the draws at the matching tape positions. |
| Patterns.GridShotBullet | Assets/ML-Agents/Shooting/Scripts/Enemy/BulletSpawner.cs:446-470 | Each bullet's angle is within launchAngleJitter of its row position, and its speed is within launchSpeedJitter of its layer's speed. |
| Patterns.NWayRowSpansSpread | Assets/ML-Agents/Shooting/Scripts/Enemy/BulletSpawner.cs:427-436 | With several bullets, an N-way row runs from base − spread/2 to base + spread/2 in equal steps. |
| Patterns.NWaySingleBulletIsOffCentre | Assets/ML-Agents/Shooting/Scripts/Enemy/BulletSpawner.cs:434-436 | A single-bullet N-way shot flies at base − spread/2, not at the base angle. |
| Patterns.SingleShot | Assets/ML-Agents/Shooting/Scripts/Enemy/BulletSpawner.cs:476-493 | ShootSingle emits one bullet per speed layer, of the shot's team and bullet type. |
| Patterns.NWayShot | Assets/ML-Agents/Shooting/Scripts/Enemy/BulletSpawner.cs:424-473 | ShootExpandingNWay emits speedCount × (nWayCount + countAdd·step) bullets. |
| Patterns.AllDirectionsShot | Assets/ML-Agents/Shooting/Scripts/Enemy/BulletSpawner.cs:495-523 | ShootAllDirections emits speedCount × RoundCount bullets. |
| Patterns.AllDirectionsSpacing | Assets/ML-Agents/Shooting/Scripts/Enemy/BulletSpawner.cs:498-505 | Neighbouring bullets are 360/RoundCount apart. The ring is turned by half a step only for an even count with useEvenOffset. |
| Patterns.GapFrom | Assets/ML-Agents/Shooting/Scripts/Enemy/BulletSpawner.cs:529-556 | The random-gap loops emit only bullets of the shot's team and type. |
| Patterns.RandomGapShot | Assets/ML-Agents/Shooting/Scripts/Enemy/BulletSpawner.cs:524-558 | Every request of a random-gap shot is of the shot's team and bullet type. |
| Patterns.ShootRandomGap | Assets/ML-Agents/Shooting/Scripts/Enemy/BulletSpawner.cs:524-558 | The nested loops with their `continue` compute exactly RandomGapShot. |
| Patterns.GapFromCounts | Assets/ML-Agents/Shooting/Scripts/Enemy/BulletSpawner.cs:539-548 | Dropped draws are not retried. Each attempt costs one draw and each fired bullet two more, so at most one bullet comes per attempt. |
| Patterns.GapFromAvoidsTarget | Assets/ML-Agents/Shooting/Scripts/Enemy/BulletSpawner.cs:539-552 | Without angle jitter no random-gap bullet flies within gapWidth/2 of the target angle. |
| Patterns.RandomGapShotProperties | Assets/ML-Agents/Shooting/Scripts/Enemy/BulletSpawner.cs:524-558 | A whole shot makes speedCount × RoundCount attempts, fires at most that many bullets and uses one draw per attempt plus two per bullet. |
| Patterns.ShotRequests | Assets/ML-Agents/Shooting/Scripts/Enemy/BulletSpawner.cs:400-421 | A shot without a bullet type or pattern fires nothing. Otherwise every request carries the shot's team and bullet type. |
| Patterns.ExecuteShot | Assets/ML-Agents/Shooting/Scripts/Enemy/BulletSpawner.cs:400-421 | The loops of the chosen pattern compute exactly ShotRequests. |
| Bullet.StartupLook | Assets/ML-Agents/Shooting/Scripts/Enemy/EnemyBullet.cs:341-365 | The effect value goes from startValue at t ≤ 0 to endValue at t ≥ 1. Only a ScaleUp effect rescales the bullet, and nothing else of its look changes. |
| Bullet.SetupColliders | Assets/ML-Agents/Shooting/Scripts/Enemy/EnemyBullet.cs:87-114 | A Circle shape enables only the circle collider, with the data's radius. A Capsule shape enables only the capsule. A Cross shape touches neither. |
| Bullet.SetupSpec | Assets/ML-Agents/Shooting/Scripts/Enemy/EnemyBullet.cs:67-144 | Setup zeroes the per-flight counters and starts preparing exactly when durationFrames > 0. The sub-spawn timer and closing flags are kept. Motion starts at the given position, speed and angle. |
| Bullet.ActualDeactivate | Assets/ML-Agents/Shooting/Scripts/Enemy/EnemyBullet.cs:308-313 | Retiring always ends with the pool return. It spawns a death effect exactly when the data has one, and it clears the closing flag. |
| Bullet.DeactivateSpec | Assets/ML-Agents/Shooting/Scripts/Enemy/EnemyBullet.cs:269-288 | A closing bullet ignores Deactivate. With a startup animation it starts closing with colliders off; otherwise it retires at once. |
| Bullet.PrepStep | Assets/ML-Agents/Shooting/Scripts/Enemy/EnemyBullet.cs:327-339 | Each startup frame counts one. Preparing ends at durationFrames with the effect at its end value. A MoveX effect moves the bullet by right·value·dt; otherwise the motion is untouched. Nothing but the phase, the look and the position changes. |
| Bullet.CloseProgress | Assets/ML-Agents/Shooting/Scripts/Enemy/EnemyBullet.cs:291-305 | The closing progress is 0 on the last frame and positive before it. |
| Bullet.CloseStep | Assets/ML-Agents/Shooting/Scripts/Enemy/EnemyBullet.cs:291-305 | Each closing frame counts one. Before durationFrames nothing is emitted; at the end the bullet retires with the effect back at its start value. A MoveX effect moves the bullet by right·value·dt, on the last frame too; otherwise the motion is untouched. Age is untouched. |
| Bullet.NextSpeed | Assets/ML-Agents/Shooting/Scripts/Enemy/EnemyBullet.cs:192-194 | Acceleration is capped at maxSpeed only when maxSpeed > 0. |
| Bullet.Integrate | Assets/ML-Agents/Shooting/Scripts/Enemy/EnemyBullet.cs:192-197 | Speed follows NextSpeed and the angle turns by angleAcc·dt without a cap. Velocity follows the new angle and speed, and the position moves by velocity·dt. |
| Bullet.SubSpawnStep | Assets/ML-Agents/Shooting/Scripts/Enemy/EnemyBullet.cs:200-229 | At most one sub-shot per frame, from the bullet's position for its team, and only for data with sub-shots. Only the sub-spawn timer changes. |
| Bullet.MoveStep | Assets/ML-Agents/Shooting/Scripts/Enemy/EnemyBullet.cs:192-265 | The bullet moves as Integrate says. It goes back to the pool exactly when it ends out of bounds, never with a death effect. |
| Bullet.UpdateSpec | Assets/ML-Agents/Shooting/Scripts/Enemy/EnemyBullet.cs:145-215 | Every Update counts one frame and runs exactly one phase: PrepStep while preparing, CloseStep while closing, else the lifespan and movement step. The change step index and collider radius are untouched. |
| Bullet.PreparingLastsDuration | Assets/ML-Agents/Shooting/Scripts/Enemy/EnemyBullet.cs:152-157 | Preparing lasts exactly durationFrames Updates. During them the bullet neither ages nor emits, and it ends at the effect's end value. |
| Bullet.PreparingMovesByDrift | Assets/ML-Agents/Shooting/Scripts/Enemy/EnemyBullet.cs:327-365 | While preparing, a bullet without a MoveX effect does not move. A MoveX bullet moves by the sum of right·value·dt over the frames, with the effect value of each startup frame. |
| Bullet.ConstantDrift | Assets/ML-Agents/Shooting/Scripts/Enemy/EnemyBullet.cs:357-359 | MoveX steps that all apply one value v in one direction carry the bullet right·v·(elapsed time). |
| Bullet.ConstantEffectDrift | Assets/ML-Agents/Shooting/Scripts/Enemy/EnemyBullet.cs:341-365 | A MoveX effect with equal start and end values v carries a bullet facing one way right·v·(elapsed time), preparing or closing. |
| Bullet.ClosingLastsDuration | Assets/ML-Agents/Shooting/Scripts/Enemy/EnemyBullet.cs:160-164 | Before its last frame a closing bullet emits nothing, stays closing and does not age. |
| Bullet.ClosingMovesByDrift | Assets/ML-Agents/Shooting/Scripts/Enemy/EnemyBullet.cs:291-305 | Before its last frame a closing bullet without a MoveX effect does not move. A MoveX bullet moves by the sum of right·value·dt, with the effect value of each closing frame. |
| Bullet.ClosingEnds | Assets/ML-Agents/Shooting/Scripts/Enemy/EnemyBullet.cs:291-305 | The last closing frame returns the bullet to the pool with the effect back at its start value. |
| Bullet.LifespanCountsTwice | Assets/ML-Agents/Shooting/Scripts/Enemy/EnemyBullet.cs:167-186 | The lifespan block runs twice, so a surviving bullet ages 2·dt per frame. Reaching the lifespan deactivates it. Without a lifespan it never ages. |
| Bullet.OutOfBoundsReturnsDirectly | Assets/ML-Agents/Shooting/Scripts/Enemy/EnemyBullet.cs:257-265 | Leaving the bounds returns the bullet to the pool directly, with no closing animation and no death effect. |
| Bullet.SpeedStaysCapped | Assets/ML-Agents/Shooting/Scripts/Enemy/EnemyBullet.cs:192-197 | With a positive maxSpeed a moving bullet's speed never exceeds it. |
| Bullet.ApplyNextStep | Assets/ML-Agents/Shooting/Scripts/Enemy/EnemyBullet.cs:241-255 | A positive radius and a non-zero scale are applied. A trajectory change replaces speed and angle parameters but not position or velocity. |
| Bullet.EnemyBullet.constructor | Assets/ML-Agents/Shooting/Scripts/Enemy/EnemyBullet.cs:59-65 | A fresh prefab has no data and no phase running. |
| Bullet.EnemyBullet.DamageValue | Assets/ML-Agents/Shooting/Scripts/Enemy/EnemyBullet.cs:57 | The damage is the data's damage, or 1 before any Setup. |
| Bullet.EnemyBullet.Setup | Assets/ML-Agents/Shooting/Scripts/Enemy/EnemyBullet.cs:67-144 | The fields change exactly as SetupSpec says. |
| Bullet.EnemyBullet.RetireNow | Assets/ML-Agents/Shooting/Scripts/Enemy/EnemyBullet.cs:308-313 | The bullet retires as ActualDeactivate says and is enqueued in the pool. |
| Bullet.EnemyBullet.Deactivate | Assets/ML-Agents/Shooting/Scripts/Enemy/EnemyBullet.cs:269-288 | The bullet follows DeactivateSpec. The pool changes only when a pool return is emitted. |
| Bullet.EnemyBullet.ApplyStartupEffect | Assets/ML-Agents/Shooting/Scripts/Enemy/EnemyBullet.cs:341-365 | The look changes as StartupLook says and the motion as StartupMotion says, a MoveX step for MoveX. Nothing else changes. |
| Bullet.EnemyBullet.UpdatePreparation | Assets/ML-Agents/Shooting/Scripts/Enemy/EnemyBullet.cs:327-339 | The fields change exactly as PrepStep says, MoveX movement included. |
| Bullet.EnemyBullet.UpdateClosing | Assets/ML-Agents/Shooting/Scripts/Enemy/EnemyBullet.cs:291-305 | The fields change as CloseStep says, MoveX movement included. The pool changes only on retirement, by the return of this bullet. |
| Bullet.EnemyBullet.Move | Assets/ML-Agents/Shooting/Scripts/Enemy/EnemyBullet.cs:192-265 | The fields change as MoveStep says; the pool changes only when the bullet leaves the bounds. |
| Bullet.EnemyBullet.Update | Assets/ML-Agents/Shooting/Scripts/Enemy/EnemyBullet.cs:145-215 | The fields change as UpdateSpec says for the frame's dt and facing direction. The pool changes only on a pool return, by the return of this bullet. |
| Bullet.EnemyBullet.ApplyStep | Assets/ML-Agents/Shooting/Scripts/Enemy/EnemyBullet.cs:241-255 | The fields change exactly as ApplyNextStep says. |
| Pool.Ids | Assets/ML-Agents/Shooting/Scripts/System/BulletPool.cs:19-25 | Awake's loop creates n consecutive objects of the pool's own. |
| Pool.Prefill | Assets/ML-Agents/Shooting/Scripts/System/BulletPool.cs:14-26 | Prefilling creates n new inactive objects and appends them to the queue. Older objects keep their flags. |
| Pool.PrefillFromEmpty | Assets/ML-Agents/Shooting/Scripts/System/BulletPool.cs:14-26 | After Awake the queue holds exactly objects 0..n−1, all inactive. |
| Pool.GetSpec | Assets/ML-Agents/Shooting/Scripts/System/BulletPool.cs:29-44 | Get takes the head of a non-empty queue (FIFO), whatever object it is. Otherwise it instantiates a new object the pool has never seen. Either way the object is activated. |
| Pool.ReturnSpec | Assets/ML-Agents/Shooting/Scripts/System/BulletPool.cs:47-51 | ReturnToPool deactivates any object, pool-made or not, and appends it to the queue. |
| Pool.ReturnedObjectIsServed | Assets/ML-Agents/Shooting/Scripts/System/BulletPool.cs:29-51 | An object of any kind returned to an empty pool is the next object Get hands out, activated. |
| Pool.ReturnAllSpec | Assets/ML-Agents/Shooting/Scripts/System/BulletPool.cs:53-64 | ReturnAllBullets creates no objects and keeps the pool well formed. |
| Pool.ReturnAllReturnsActive | Assets/ML-Agents/Shooting/Scripts/System/BulletPool.cs:53-64 | Over distinct found objects, the queue grows by exactly those still active, once each, in the order the tag search found them. |
| Pool.ReturnAllDeactivatesFound | Assets/ML-Agents/Shooting/Scripts/System/BulletPool.cs:53-64 | Afterwards every found object is inactive, every other object keeps its flag, and only found objects gain a flag. |
| Pool.ActiveAmong | Assets/ML-Agents/Shooting/Scripts/System/BulletPool.cs:59-62 | The selection holds exactly the found objects that are active, and no more of them than were found. |
| Pool.GetThenReturnKeepsLength | Assets/ML-Agents/Shooting/Scripts/System/BulletPool.cs:29-51 | A Get followed by returning that object leaves the queue as long as before, with the object now at the back. |
| Pool.DoubleReturnEnqueuesTwice | Assets/ML-Agents/Shooting/Scripts/System/BulletPool.cs:47-51 | Returning the same object twice enqueues it twice, because ReturnToPool does not check for duplicates. |
| Pool.BulletPool.constructor | Assets/ML-Agents/Shooting/Scripts/System/BulletPool.cs:14-26 | Awake fills the queue with max(0, initialPoolSize) inactive objects. |
| Pool.BulletPool.Get | Assets/ML-Agents/Shooting/Scripts/System/BulletPool.cs:29-44 | The state changes as GetSpec says, and the returned object is active. |
| Pool.BulletPool.ReturnToPool | Assets/ML-Agents/Shooting/Scripts/System/BulletPool.cs:47-51 | The state changes as ReturnSpec says, for any object that exists, foreign ones included. |
| Pool.BulletPool.ReturnAllBullets | Assets/ML-Agents/Shooting/Scripts/System/BulletPool.cs:53-64 | The state changes as ReturnAllSpec says over the found objects. Over distinct objects the queue grows by exactly the active ones in the order found, and none of the found objects stays active. |
| Circle.Orders | Assets/ML-Agents/Shooting/Scripts/System/MagicCircle.cs:207-219 | With a spawner and barrage data there is one ExecuteShot per shot, in order, at step 0 from the circle's position. Otherwise there is none. |
| Circle.RepeatOrders | Assets/ML-Agents/Shooting/Scripts/System/MagicCircle.cs:103-131 | n finished barrage waits fire n copies of the barrage. |
| Circle.ActivateSpec | Assets/ML-Agents/Shooting/Scripts/System/MagicCircle.cs:221-227 | Activate sets the radius, cancels expiry, grows toward the radius and adds one expiry wait of the given duration. Nothing else changes. |
| Circle.PeriodicStep | Assets/ML-Agents/Shooting/Scripts/System/MagicCircle.cs:136-187 | The life runs down by dt. When it runs out the circle leaves periodic mode, starts to expire and fires nothing. Otherwise, when the fire timer runs out, the circle fires the barrage and the timer restarts at fireInterval. It moves only when homing with a spawner and a target. |
| Circle.ManualStep | Assets/ML-Agents/Shooting/Scripts/System/MagicCircle.cs:189-192 | Manual mode moves only x, by moveDir·speed·dt. |
| Circle.TravelStep | Assets/ML-Agents/Shooting/Scripts/System/MagicCircle.cs:194-205 | The circle travels toward the destination at 18 units/s. Arriving within 0.01 clears the destination, schedules one barrage and activates the circle. |
| Circle.ScaleStep | Assets/ML-Agents/Shooting/Scripts/System/MagicCircle.cs:124-130 | The scale moves toward its target without overshooting. The circle is destroyed exactly when it is expiring and its scale falls below 0.05. |
| Circle.AdvanceWaits | Assets/ML-Agents/Shooting/Scripts/System/MagicCircle.cs:207-234 | Each wait loses dt. The finished ones are counted and the rest remain positive; nothing finishes exactly when every wait is longer than dt. |
| Circle.HandlerKeepsPendingWaits | Assets/ML-Agents/Shooting/Scripts/System/MagicCircle.cs:110-121 | A mode handler only appends waits after the ones already pending. |
| Circle.ClearOn | Assets/ML-Agents/Shooting/Scripts/System/MagicCircle.cs:242-252 | A circle clears only when not expiring and clearing is on, and only the opponent's bullet layer. It deactivates exactly the objects that are EnemyBullets. |
| Circle.UpdateDispatch | Assets/ML-Agents/Shooting/Scripts/System/MagicCircle.cs:110-121 | Exactly one handler runs per frame: periodic before manual before travel, and none without a destination. |
| Circle.PeriodicLifeEnds | Assets/ML-Agents/Shooting/Scripts/System/MagicCircle.cs:139-147 | When the periodic life runs out, the frame fires nothing and the circle leaves periodic mode and starts expiring. |
| Circle.MovingBarrageFiresFirstFrame | Assets/ML-Agents/Shooting/Scripts/System/MagicCircle.cs:60-77 | A freshly launched moving barrage fires its shots on its first frame and restarts the fire timer. |
| Circle.HomingNeverOvershoots | Assets/ML-Agents/Shooting/Scripts/System/MagicCircle.cs:150-172 | A homing step ends on the homing point or on the segment toward it, never past it. |
| Circle.HomingArrivesWhenLifeEnds | Assets/ML-Agents/Shooting/Scripts/System/MagicCircle.cs:150-172 | When the remaining life is at most one frame, the homing step lands exactly on the homing point. |
| Circle.TravelArrivalActivates | Assets/ML-Agents/Shooting/Scripts/System/MagicCircle.cs:194-205 | Arrival clears the destination, fires nothing yet, queues one barrage wait and activates the circle with its radius. |
| Circle.FrameOf | Assets/ML-Agents/Shooting/Scripts/System/MagicCircle.cs:229-234 | A wait finishes, if at all, within the given frames. |
| Circle.WaitFinishesWhenElapsed | Assets/ML-Agents/Shooting/Scripts/System/MagicCircle.cs:229-234 | A coroutine wait finishes in exactly the first frame by which the elapsed time reaches its length. |
| Circle.MagicCircle.constructor | Assets/ML-Agents/Shooting/Scripts/System/MagicCircle.cs:44-55 | Initialize starts at scale 0 with clearing on, no mode, no waits and the opponent's bullet layer. |
| Circle.MagicCircle.LaunchMovingBarrage | Assets/ML-Agents/Shooting/Scripts/System/MagicCircle.cs:60-77 | Sets periodic homing mode, turns clearing off, sets the barrage and the timers with the fire timer at 0, and uses scale 0.8. |
| Circle.MagicCircle.LaunchToTarget | Assets/ML-Agents/Shooting/Scripts/System/MagicCircle.cs:79-89 | Sets the destination and the barrage, turns clearing off and uses scale 0.5. |
| Circle.MagicCircle.StartManualMove | Assets/ML-Agents/Shooting/Scripts/System/MagicCircle.cs:91-98 | Sets manual mode with clearing on, the direction and 5 units/s. |
| Circle.MagicCircle.SetBulletClearing | Assets/ML-Agents/Shooting/Scripts/System/MagicCircle.cs:100 | Only the clearing switch changes. |
| Circle.MagicCircle.SetTargetScale | Assets/ML-Agents/Shooting/Scripts/System/MagicCircle.cs:101 | Only the target scale changes. |
| Circle.MagicCircle.Activate | Assets/ML-Agents/Shooting/Scripts/System/MagicCircle.cs:221-227 | The state changes as ActivateSpec says. |
| Circle.MagicCircle.DeployAtCurrentPosition | Assets/ML-Agents/Shooting/Scripts/System/MagicCircle.cs:236-240 | Manual mode ends, then the circle is activated where it stands. |
| Circle.MagicCircle.Update | Assets/ML-Agents/Shooting/Scripts/System/MagicCircle.cs:103-131 | One frame changes the state and fires the orders exactly as the frame function says: handler, scale, then the resumed coroutines. |
| Circle.MagicCircle.HandlePeriodicFiringMode | Assets/ML-Agents/Shooting/Scripts/System/MagicCircle.cs:136-187 | The state and orders are exactly those of PeriodicStep. |
| Circle.MagicCircle.HandleNormalRemoteMode | Assets/ML-Agents/Shooting/Scripts/System/MagicCircle.cs:194-205 | The state is exactly that of TravelStep. |
| Circle.MagicCircle.AdvancePending | Assets/ML-Agents/Shooting/Scripts/System/MagicCircle.cs:207-234 | The pending ExpireRoutine and ExecuteBarrageRoutine waits resume as the coroutine step says. |
| Circle.MagicCircle.AdvanceList | Assets/ML-Agents/Shooting/Scripts/System/MagicCircle.cs:207-234 | The loop over a wait list computes AdvanceWaits. |
| Circle.MagicCircle.OnTriggerEnter2D | Assets/ML-Agents/Shooting/Scripts/System/MagicCircle.cs:242-252 | The result is ClearOn for the circle's state; a clearing circle is never expiring. |
| Assault.FacingDirection | Assets/ML-Agents/Shooting/Scripts/System/AssaultObject.cs:27-34 | The direction is ±1 and faces the target along x; with no target it follows transform.right. |
| Assault.FacingScale | Assets/ML-Agents/Shooting/Scripts/System/AssaultObject.cs:43-45 | The sprite keeps its width and is flipped to face the direction of travel. |
| Assault.ClearFor | Assets/ML-Agents/Shooting/Scripts/System/AssaultObject.cs:70-75 | Only objects on the opponent's bullet layer are cleared, and exactly those that are EnemyBullets are deactivated. |
| Assault.HitFor | Assets/ML-Agents/Shooting/Scripts/System/AssaultObject.cs:79-95 | A hit lands exactly when none has yet and the contact is an opposing agent that is not invincible. It deals the object's damage, attributed to its owner. |
| Assault.AtMostOneHit | Assets/ML-Agents/Shooting/Scripts/System/AssaultObject.cs:79-95 | Over any series of contacts an assault object lands at most one hit, and none once it has hit. |
| Assault.FirstOpponentIsHit | Assets/ML-Agents/Shooting/Scripts/System/AssaultObject.cs:79-95 | The first contact with an opposing, non-invincible agent gets the single hit, whatever same-team or invincible contacts came before. |
| Assault.AssaultObject.constructor | Assets/ML-Agents/Shooting/Scripts/System/AssaultObject.cs:5-14 | A new object has not hit and is not destroyed. |
| Assault.AssaultObject.Initialize | Assets/ML-Agents/Shooting/Scripts/System/AssaultObject.cs:17-53 | Sets the direction, the flipped scale and the opponent's layers, and stores speed, life and damage. |
| Assault.AssaultObject.Update | Assets/ML-Agents/Shooting/Scripts/System/AssaultObject.cs:55-63 | Only x moves, by direction·speed·dt. Life drops by dt, and the object is destroyed exactly when life is used up. |
| Assault.AssaultObject.OnTriggerEnter2D | Assets/ML-Agents/Shooting/Scripts/System/AssaultObject.cs:67-96 | Clearing follows ClearFor and the hit follows HitFor. hasHit becomes set once a hit lands. |
| Dodger.StatusTick | Assets/ML-Agents/Shooting/Scripts/Player/DodgerAgent.cs:329-346 | The agent can move exactly when it is not stunned. A running stun never grows. |
| Dodger.StunFreezesInvincibility | Assets/ML-Agents/Shooting/Scripts/Player/DodgerAgent.cs:329-346 | While a stun lasts it counts down by the elapsed time and the invincibility timer is frozen. |
| Dodger.StunEndsInInvincibility | Assets/ML-Agents/Shooting/Scripts/Player/DodgerAgent.cs:329-346 | On the frame the stun ends the agent becomes invincible for the full invincibility duration. |
| Dodger.InvincibilityRunsDown | Assets/ML-Agents/Shooting/Scripts/Player/DodgerAgent.cs:329-346 | Without a stun, invincibility counts down by the elapsed time. |
| Dodger.HitLandsExactly | Assets/ML-Agents/Shooting/Scripts/Player/DodgerAgent.cs:546-585 | A bullet is ignored exactly when the round is inactive, the agent is invincible, the bullet is its own team's, or the agent is stunned and the bullet is not continuous-hit. |
| Dodger.StartX | Assets/ML-Agents/Shooting/Scripts/Player/DodgerAgent.cs:163-187 | The start x is ±6, on the left exactly when the agent is Player1 and sides are not swapped, or Player2 and they are. |
| Dodger.SideSyncStep | Assets/ML-Agents/Shooting/Scripts/Player/DodgerAgent.cs:163-176 | The swap is redrawn only on the first episode start of a frame, as Random.value > 0.5. |
| Dodger.SameFrameOppositeSides | Assets/ML-Agents/Shooting/Scripts/Player/DodgerAgent.cs:163-187 | Two agents that begin in the same frame share one swap decision and so start on opposite sides. |
| Dodger.CountdownStep | Assets/ML-Agents/Shooting/Scripts/Player/DodgerAgent.cs:586-613 | The current countdown wait runs down and is dropped once it finishes; later waits are untouched. |
| Dodger.SideSync.constructor | Assets/ML-Agents/Shooting/Scripts/Player/DodgerAgent.cs:76-77 | The static side flag starts unswapped, with no frame seen. |
| Dodger.DodgerAgent.constructor | Assets/ML-Agents/Shooting/Scripts/Player/DodgerAgent.cs:101-128 | Initialize sets the team and maximum health, stun 2 s and invincibility 5 s, and no round is active. |
| Dodger.DodgerAgent.OnEpisodeBegin | Assets/ML-Agents/Shooting/Scripts/Player/DodgerAgent.cs:142-205 | Each episode draws the shared side swap, places the agent at StartX and restores health with both timers at 0. It requests a bullet clear and a timer reset, plus one more bullet clear on the first start of a frame. Training starts the round at once; otherwise the 3-2-1-GO countdown runs. |
| Dodger.DodgerAgent.RoundStartTick | Assets/ML-Agents/Shooting/Scripts/Player/DodgerAgent.cs:586-613 | The countdown advances one frame, and the round becomes active when its last wait finishes. |
| Dodger.DodgerAgent.OnActionReceived | Assets/ML-Agents/Shooting/Scripts/Player/DodgerAgent.cs:308-346 | An inactive round does nothing. The step before MaxStep ends the match. Otherwise the status timers tick as StatusTick says. |
| Dodger.DodgerAgent.Heal | Assets/ML-Agents/Shooting/Scripts/Player/DodgerAgent.cs:638-644 | Health rises by the amount, capped at the maximum. |
| Dodger.DodgerAgent.HandleMatchOver | Assets/ML-Agents/Shooting/Scripts/Player/DodgerAgent.cs:764-824 | The round ends and bullets, skills and recasts are cleared; the opponent is stopped if active. |
| Dodger.DodgerAgent.TakeDamage | Assets/ML-Agents/Shooting/Scripts/Player/DodgerAgent.cs:647-688 | Nothing happens while invincible. Otherwise health drops by the amount; at or below 0 the match is over, and above it the agent is stunned for stunDuration. |
| Dodger.DodgerAgent.OnTriggerEnter2D | Assets/ML-Agents/Shooting/Scripts/Player/DodgerAgent.cs:546-585 | A bullet passing the hit filter deals its damage and is deactivated. A surviving agent is stunned and a defeated one ends the round. Any other contact changes nothing. |
| Dodger.DodgerAgent.TriggerInvincibility | Assets/ML-Agents/Shooting/Scripts/Player/DodgerAgent.cs:698-701 | Only the invincibility timer changes, to the duration. |
| Dodger.DodgerAgent.StartDodgeAction | Assets/ML-Agents/Shooting/Scripts/Player/DodgerAgent.cs:704-718 | A dodge already running is not restarted. Otherwise the agent becomes invincible for the dodge's duration. |
| Dodger.DodgerAgent.EndDodgeAction | Assets/ML-Agents/Shooting/Scripts/Player/DodgerAgent.cs:721-731 | The dodge ends and leaves any remaining invincibility in place. |
| Dodger.DodgerAgent.StopAgentAction | Assets/ML-Agents/Shooting/Scripts/Player/DodgerAgent.cs:815-824 | The round ends and the agent's skills and recasts are reset. |
| Health.HpAfter | Assets/ML-Agents/Shooting/Scripts/Player/PlayerHealth.cs:30-40 | Hit points stay in [0, maxHp] and never rise from a non-negative hit. They reach 0 exactly when the damage uses them up. |
| Health.SliderValue | Assets/ML-Agents/Shooting/Scripts/Player/PlayerHealth.cs:42-49 | The slider shows the ratio, in [0,1], and is full exactly at maximum health. A zero maximum has no value. |
| Health.DamageAccumulates | Assets/ML-Agents/Shooting/Scripts/Player/PlayerHealth.cs:30-40 | Hits add up: after any series of non-negative hits the health is max(0, hp − total). |
| Health.PlayerHealth.constructor | Assets/ML-Agents/Shooting/Scripts/Player/PlayerHealth.cs:16-27 | Awake starts at full health with the slider full. |
| Health.PlayerHealth.UpdateUI | Assets/ML-Agents/Shooting/Scripts/Player/PlayerHealth.cs:42-49 | With a slider the slider shows the current ratio; health is unchanged. |
| Health.PlayerHealth.ResetHp | Assets/ML-Agents/Shooting/Scripts/Player/PlayerHealth.cs:23-27 | Health is back at the maximum and the slider is refreshed. |
| Health.PlayerHealth.TakeDamage | Assets/ML-Agents/Shooting/Scripts/Player/PlayerHealth.cs:30-40 | Health drops as HpAfter says, and death is reported exactly when it reaches 0. |
| Health.PlayerHealth.OnTriggerEnter2D | Assets/ML-Agents/Shooting/Scripts/Player/PlayerHealth.cs:68-84 | Any EnemyBullet deals its damage and is deactivated, whichever team fired it. Other contacts change nothing. |
| Gauge.GaugeAfter | Assets/ML-Agents/Shooting/Scripts/System/SpecialGaugeManager.cs:23-31 | The gauge never exceeds its maximum and is the plain sum whenever that fits. A non-negative amount never lowers it. |
| Gauge.IncreasesSaturate | Assets/ML-Agents/Shooting/Scripts/System/SpecialGaugeManager.cs:23-31 | Non-negative increases saturate: in any pieces, the gauge is min(start + total, max). |
| Gauge.NegativeAmountGoesBelowZero | Assets/ML-Agents/Shooting/Scripts/System/SpecialGaugeManager.cs:23-31 | The gauge has no lower clamp: whenever g + amount < 0 ≤ maxGauge, the gauge becomes exactly g + amount, below 0. |
| Gauge.DecreasesAreUnclamped | Assets/ML-Agents/Shooting/Scripts/System/SpecialGaugeManager.cs:23-31 | From a gauge within its maximum, any series of non-positive amounts subtracts its whole total, below 0 if need be. |
| Gauge.SpecialGaugeManager.constructor | Assets/ML-Agents/Shooting/Scripts/System/SpecialGaugeManager.cs:9 | The gauge starts empty. |
| Gauge.SpecialGaugeManager.IncreaseGauge | Assets/ML-Agents/Shooting/Scripts/System/SpecialGaugeManager.cs:23-31 | The gauge rises as GaugeAfter says, and it is full exactly when the sum reaches the maximum. |
| Gauge.SpecialGaugeManager.ConsumeFullGauge | Assets/ML-Agents/Shooting/Scripts/System/SpecialGaugeManager.cs:32-36 | The gauge is emptied, so it is no longer full unless the maximum is at most 0. |
| Gauge.SpecialGaugeManager.ResetGauge | Assets/ML-Agents/Shooting/Scripts/System/SpecialGaugeManager.cs:39-43 | The gauge is emptied. |
| Graze.GrazeStep | Assets/ML-Agents/Shooting/Scripts/System/GrazeDetector.cs:12-34 | A contact counts exactly when it is an opposing EnemyBullet not grazed before. Every eligible id is remembered. |
| Graze.GrazedIds | Assets/ML-Agents/Shooting/Scripts/System/GrazeDetector.cs:22-30 | After any contacts, the grazed set is the old set plus every eligible id. |
| Graze.OncePerBullet | Assets/ML-Agents/Shooting/Scripts/System/GrazeDetector.cs:12-34 | Between resets the gauge rises exactly once per new eligible bullet, however often it touches the ring. |
| Graze.GrazeDetector.constructor | Assets/ML-Agents/Shooting/Scripts/System/GrazeDetector.cs:6-10 | The graze list starts empty. |
| Graze.GrazeDetector.OnTriggerEnter2D | Assets/ML-Agents/Shooting/Scripts/System/GrazeDetector.cs:12-34 | The list changes as GrazeStep says, and the gauge rises by the gain exactly when the contact counted. |
| Graze.GrazeDetector.ResetGrazeList | Assets/ML-Agents/Shooting/Scripts/System/GrazeDetector.cs:37-40 | After a reset every eligible contact counts again. |
| Timer.PlayTick | Assets/ML-Agents/Shooting/Scripts/System/GameTimerManager.cs:46-59 | The clock runs only while positive. TimeUp fires exactly when a frame takes it to 0 or below, and the clock is then back at the initial time. |
| Timer.CountsDownUntilElapsed | Assets/ML-Agents/Shooting/Scripts/System/GameTimerManager.cs:46-59 | Until the elapsed time reaches the clock, it simply counts down and TimeUp never fires. |
| Timer.TimeUpOnceThenRestart | Assets/ML-Agents/Shooting/Scripts/System/GameTimerManager.cs:46-78 | On the frame the elapsed time first reaches the clock, TimeUp fires exactly once and the clock restarts. |
| Timer.TrainingTime | Assets/ML-Agents/Shooting/Scripts/System/GameTimerManager.cs:30-45 | In training the clock shows the unused share of MaxStep. It is the initial time at step 0 and 0 at MaxStep, and it stays within [0, initial]. |
| Timer.GameTimerManager.constructor | Assets/ML-Agents/Shooting/Scripts/System/GameTimerManager.cs:15-18 | Start sets the clock to the initial time. |
| Timer.GameTimerManager.ResetTimer | Assets/ML-Agents/Shooting/Scripts/System/GameTimerManager.cs:20-23 | The clock is back at the initial time. |
| Timer.GameTimerManager.TimeUp | Assets/ML-Agents/Shooting/Scripts/System/GameTimerManager.cs:62-78 | After TimeUp the clock is back at the initial time. |
| Timer.GameTimerManager.Update | Assets/ML-Agents/Shooting/Scripts/System/GameTimerManager.cs:25-60 | Training with a player reference shows TrainingTime and never times up. Training without one leaves the clock alone. Play follows PlayTick. |
| Bits.UnitBits | Assets/ML-Agents/Shooting/Scripts/Menu/BitContainer.cs:145-159 | A length unit is 1, 8, 16 or 32 bits. |
| Bits.Locate | Assets/ML-Agents/Shooting/Scripts/Menu/BitContainer.cs:43-62 | The lookup finds the first field with the name, or reports that none has it. |
| Bits.FieldsInOrder | Assets/ML-Agents/Shooting/Scripts/Menu/BitContainer.cs:51-62 | Fields lie end to end: each ends at or before the start of every later one. |
| Bits.FieldFits | Assets/ML-Agents/Shooting/Scripts/Menu/BitContainer.cs:9-18 | Every field lies inside the container's bits. |
| Bits.GetSpec | Assets/ML-Agents/Shooting/Scripts/Menu/BitContainer.cs:98-126 | Get returns exactly the requested number of bytes. |
| Bits.GetSpecBits | Assets/ML-Agents/Shooting/Scripts/Menu/BitContainer.cs:98-126 | Bit j of the q-th byte from the end is field bit 8q + j, or clear past the field: the field reads back big-endian. |
| Bits.SetSpec | Assets/ML-Agents/Shooting/Scripts/Menu/BitContainer.cs:127-139 | Set keeps the length and every bit outside the field. It copies the data's low bits into the field; field bits beyond the data keep their old values. |
| Bits.WriteAllLeavesLaterFields | Assets/ML-Agents/Shooting/Scripts/Menu/BitContainer.cs:88-97 | WriteAll over the first n fields leaves the bits of every later field untouched, whether or not it completes. |
| Bits.WriteAllFieldBits | Assets/ML-Agents/Shooting/Scripts/Menu/BitContainer.cs:88-97 | When the first n names all have entries, each of those fields holds what a Set of its own entry alone would leave there. |
| Bits.WriteAllFieldReads | Assets/ML-Agents/Shooting/Scripts/Menu/BitContainer.cs:88-97 | After a WriteAll that completes, each field reads back exactly as after a Set of its own entry, so ReadAfterWrite describes every field. |
| Bits.BytesOf | Assets/ML-Agents/Shooting/Scripts/Menu/BitContainer.cs:29-36 | GetBytes yields ceil(bits / 8) bytes. |
| Bits.FromBytes | Assets/ML-Agents/Shooting/Scripts/Menu/BitContainer.cs:37-42 | ToBytes keeps the bit length. |
| Bits.GetBytesRoundTrip | Assets/ML-Agents/Shooting/Scripts/Menu/BitContainer.cs:29-42 | Loading the container's own bytes gives back the same bits. |
| Bits.ReadAfterWrite | Assets/ML-Agents/Shooting/Scripts/Menu/BitContainer.cs:51-87 | Reading a field after writing it returns the data's low bits, up to the field's size. |
| Bits.WriteReadKeepsLowBits | Assets/ML-Agents/Shooting/Scripts/Menu/BitContainer.cs:51-87 | With enough bytes of data, a read of ceil(size / 8) bytes returns the data's low size bits and clears the bits above. |
| Bits.FourBitFieldDropsHighBits | Assets/ML-Agents/Shooting/Scripts/Menu/SaveManager.cs:18-19 | Writing 0xFF into a 4-bit field reads back as 0x0F. |
| Bits.GetSpecFrame | Assets/ML-Agents/Shooting/Scripts/Menu/BitContainer.cs:98-126 | Get reads nothing but the field's own bits. |
| Bits.WriteKeepsOtherFields | Assets/ML-Agents/Shooting/Scripts/Menu/BitContainer.cs:76-87 | Writing one field leaves every other field reading as before. |
| Bits.ReadAllErrSticks | Assets/ML-Agents/Shooting/Scripts/Menu/BitContainer.cs:63-75 | Once ReadAll has failed on a repeated name, later fields do not change the outcome. |
| Bits.ReadAllOkIffDistinct | Assets/ML-Agents/Shooting/Scripts/Menu/BitContainer.cs:63-75 | ReadAll succeeds exactly when the field names are distinct. |
| Bits.ReadAllEntries | Assets/ML-Agents/Shooting/Scripts/Menu/BitContainer.cs:63-75 | After a successful ReadAll, each name maps to the ceil(size / 8) bytes that Read of that field returns. |
| Bits.WriteAllUpTo | Assets/ML-Agents/Shooting/Scripts/Menu/BitContainer.cs:88-97 | WriteAll keeps the bit length. |
| Bits.WriteAllCompletes | Assets/ML-Agents/Shooting/Scripts/Menu/BitContainer.cs:88-97 | WriteAll completes exactly when every field's name has an entry. |
| Bits.BitContainer.constructor | Assets/ML-Agents/Shooting/Scripts/Menu/BitContainer.cs:9-18 | The container allocates the total size of its fields, all bits clear. |
| Bits.BitContainer.ByteLength | Assets/ML-Agents/Shooting/Scripts/Menu/BitContainer.cs:24-27 | The byte length is ceil(bits / 8). |
| Bits.BitContainer.GetBytes | Assets/ML-Agents/Shooting/Scripts/Menu/BitContainer.cs:29-36 | Bit k of the container is bit k % 8 of byte k / 8, and padding bits are clear. |
| Bits.BitContainer.ToBytes | Assets/ML-Agents/Shooting/Scripts/Menu/BitContainer.cs:37-42 | The bits become the data's bits, cut or zero-padded to the old length. |
| Bits.BitContainer.GetLength | Assets/ML-Agents/Shooting/Scripts/Menu/BitContainer.cs:43-50 | Succeeds exactly when some field has the name, with the size of the first such field. |
| Bits.BitContainer.FindField | Assets/ML-Agents/Shooting/Scripts/Menu/BitContainer.cs:51-62 | The search loop finds the first field with the name and its bit offset. |
| Bits.BitContainer.Read | Assets/ML-Agents/Shooting/Scripts/Menu/BitContainer.cs:51-62 | Fails for an unknown name or a negative length. Otherwise returns Get of the field's bits. |
| Bits.BitContainer.Write | Assets/ML-Agents/Shooting/Scripts/Menu/BitContainer.cs:76-87 | Fails for an unknown name and leaves the bits unchanged; otherwise sets the field as SetSpec says. |
| Bits.BitContainer.ReadAll | Assets/ML-Agents/Shooting/Scripts/Menu/BitContainer.cs:63-75 | The loop over the fields computes exactly the ReadAll dictionary or its error. |
| Bits.BitContainer.WriteAll | Assets/ML-Agents/Shooting/Scripts/Menu/BitContainer.cs:88-97 | Fields are written in layout order until a name is missing. The call succeeds exactly when none is missing. |
| Bits.BitContainer.WriteAllStops | Assets/ML-Agents/Shooting/Scripts/Menu/BitContainer.cs:88-97 | After the first missing name WriteAll writes nothing more. |
| Bits.BitContainer.Get | Assets/ML-Agents/Shooting/Scripts/Menu/BitContainer.cs:98-126 | The nested bit-packing loops compute exactly GetSpec. |
| Bits.BitContainer.Set | Assets/ML-Agents/Shooting/Scripts/Menu/BitContainer.cs:127-139 | The bit-copying loops compute exactly SetSpec. |

## Left out

- ML-Agents learning: observations, rewards, heuristics, `ApplyMagicCirclePenalty` and the `AddReward` calls inside `TakeDamage`. They are training signals, not game state.
- Episode restarts: ML-Agents' `EndEpisode` runs `OnEpisodeBegin` synchronously (GameTimerManager.cs:73), so in the source the round restarts at once after `TimeUp`, after `EndMatchEpisode` (at once in training or without a result text, 3 s later otherwise), at the MaxStep branch of `OnActionReceived`, and in `PlayerHealth.OnDeath`. The model reports only the signal and leaves the restart to the caller, which runs `Dodger.DodgerAgent.OnEpisodeBegin`. The signal comes from `Timer.GameTimerManager.Update` (`timeUp`), `Dodger.DodgerAgent.OnActionReceived` (`EpisodeLimit`), `Health.PlayerHealth.TakeDamage` (`died`) and `Dodger.DodgerAgent.HandleMatchOver`/`TakeDamage`, which leave the round inactive.
- Rendering is not modelled: sprites, colours, materials, particle effects, the fan visualiser, rotation of sprites and spawner ghosts. Effects appear only as events (death effect, sub-shot).
- Physics integration is not modelled: Rigidbody velocities and the movement half of `DodgerAgent.OnActionReceived`. A bullet's position is integrated directly as position + velocity·dt.
- Floating point: `float` is modelled as `real`. Rounding, NaN and infinities are absent. Division by a zero maximum (the health slider) yields no value instead of NaN.
- Engine functions: square root, trigonometry (`GetOffsetPosition`, `VelocityOf`, aiming) and vector `MoveTowards` are parameters with only the properties the proofs need. `Random.Range` and `Random.value` are a tape of draws.
- Spawner.CreateMagicCircle, UpdateMagicCircle, FinalizeMagicCircle: no code path of the spawner calls them.
- Dodger.DodgerAgent.Respawn: no code path calls it.
- The magic circle scale is modelled on its x component only. All three components follow the same `Lerp`.
- Coroutines stopped by `Destroy` or `StopAllCoroutines` are not modelled. A destroyed circle runs no further frames in the model.
- `ClearAllBullets`, `CancelAllSkills` and `ResetAllRecasts`, when called on other components, are recorded as requests in the order made. `ClearAllBullets`, `CancelAllSkills` and `ResetAllRecasts` are not defined in GameTimerManager.cs, BulletSpawner.cs or any core file, so their effects are not part of this model. Likewise `EnemyBullet.Team` and `EnemyBullet.IsContinuousHit`, read by DodgerAgent.cs and GrazeDetector.cs, are not defined in EnemyBullet.cs; the model takes the bullet's team and continuous-hit flag as inputs.
- Pool.ReturnAllBullets: the tag search `FindGameObjectsWithTag` is not modelled. Its result, in whatever order the scene gives it, is a parameter.
- The transform's rotation is not tracked. `transform.right`, which a MoveX startup effect moves along, is given for each frame.
- Bits.UnitBits: field lengths are natural numbers; a negative length and `int` overflow of bit offsets are not modelled.
- Spawner.ExecuteActualSpawn: the position and layer it gives every object it takes from the pool are not tracked. Whether an object carries an EnemyBullet component is a parameter, since the scene's composition is not modelled.
- Spawner.BulletSpawner.Update: the fan visualiser update after the loop is not modelled. Its `CalculateAngle` call consumes one `Random.Range(1f, 360f)` draw on each frame that a Random-angle pattern charges while a visualiser is present; the model skips that draw and leaves the tape cursor where the slot loop puts it.
- Bullet.CloseProgress: with durationFrames 0 the source divides by zero. The model takes the progress as 0 there, and `Deactivate` never starts closing with a zero duration.
- Circle.MagicCircle.HandleNormalRemoteMode: it requires a destination; `Update` only calls it when one is set.
