/** GameTimerManager: the round clock. In play it counts real time down and
    calls time up once it runs out; in training it mirrors the agent's step
    count. */
module Timer {
  import opened Common

  /** One play-mode Update: the new time and whether TimeUp ran. The clock
      only runs while positive, and TimeUp passes through 0 to the initial
      time again. */
  function PlayTick(t: real, initialTime: real, dt: real): (r: (real, bool))
    ensures r.1 <==> t > 0.0 && t - dt <= 0.0
    ensures r.1 ==> r.0 == initialTime
    ensures t > 0.0 && !r.1 ==> r.0 == t - dt
    ensures t <= 0.0 ==> r.0 == t
  {
    if t > 0.0 then
      var left := t - dt;
      if left <= 0.0 then (initialTime, true) else (left, false)
    else (t, false)
  }

  /** The time after a series of play-mode frames, and how many time-ups. */
  function PlayTicks(t: real, initialTime: real, dts: seq<real>): (real, nat)
    decreases |dts|
  {
    if dts == [] then (t, 0)
    else
      var s := PlayTick(t, initialTime, dts[0]);
      var rest := PlayTicks(s.0, initialTime, dts[1..]);
      (rest.0, rest.1 + if s.1 then 1 else 0)
  }

  /** Before the elapsed time reaches the clock, it has simply counted down. */
  lemma {:induction false} CountsDownUntilElapsed(t: real, initialTime: real, dts: seq<real>)
    requires t > 0.0 && AllNonneg(dts) && Sum(dts) < t
    ensures PlayTicks(t, initialTime, dts) == (t - Sum(dts), 0)
    decreases |dts|
  {
    if dts != [] {
      assert AllNonneg(dts[1..]) by {
        forall i | 0 <= i < |dts[1..]| ensures dts[1..][i] >= 0.0 { assert dts[1..][i] == dts[i + 1]; }
      }
      SumNonneg(dts[1..]);
      CountsDownUntilElapsed(t - dts[0], initialTime, dts[1..]);
    }
  }

  lemma {:induction false} PlayTicksAppend(t: real, initialTime: real, a: seq<real>, b: seq<real>)
    ensures var x := PlayTicks(t, initialTime, a);
            var y := PlayTicks(x.0, initialTime, b);
            PlayTicks(t, initialTime, a + b) == (y.0, x.1 + y.1)
    decreases |a|
  {
    if a == [] {
      assert a + b == b;
    } else {
      assert (a + b)[1..] == a[1..] + b;
      PlayTicksAppend(PlayTick(t, initialTime, a[0]).0, initialTime, a[1..], b);
    }
  }

  /** On the frame where the elapsed time first reaches the clock, TimeUp
      runs exactly once and the clock is back at the initial time. */
  lemma TimeUpOnceThenRestart(t: real, initialTime: real, dts: seq<real>)
    requires t > 0.0 && AllNonneg(dts) && dts != []
    requires Sum(dts[..|dts| - 1]) < t <= Sum(dts)
    ensures PlayTicks(t, initialTime, dts) == (initialTime, 1)
  {
    var front := dts[..|dts| - 1];
    var last := dts[|dts| - 1];
    assert front + [last] == dts;
    assert AllNonneg(front) by {
      forall i | 0 <= i < |front| ensures front[i] >= 0.0 { assert front[i] == dts[i]; }
    }
    CountsDownUntilElapsed(t, initialTime, front);
    PlayTicksAppend(t, initialTime, front, [last]);
    SumAppend(front, [last]);
    assert Sum([last]) == last;
    assert PlayTicks(t - Sum(front), initialTime, [last]) == (initialTime, 1);
  }

  /** Training mode: the clock shows the share of MaxStep not yet used. */
  function TrainingTime(stepCount: int, maxStep: int, initialTime: real): (r: real)
    requires maxStep > 0
    ensures stepCount == 0 ==> r == initialTime
    ensures stepCount == maxStep ==> r == 0.0
    ensures 0 <= stepCount <= maxStep && initialTime >= 0.0 ==> 0.0 <= r <= initialTime
  {
    var ratio := 1.0 - (stepCount as real / maxStep as real);
    if 0 <= stepCount <= maxStep then
      DivUnit(stepCount as real, maxStep as real);
      MulBounds(initialTime, ratio, ratio * initialTime);
      ratio * initialTime
    else
      ratio * initialTime
  }

  lemma DivUnit(a: real, b: real)
    requires b > 0.0 && 0.0 <= a <= b
    ensures 0.0 <= a / b <= 1.0
  {
    assert a / b * b == a;
  }

  /** What Update sees of player1: StepCount and MaxStep, if the reference
      is set. */
  datatype StepInfo = StepInfo(stepCount: int, maxStep: int)

  class GameTimerManager {
    const initialTime: real
    var currentTime: real

    /** Start: ResetTimer. */
    constructor (initial: real)
      ensures initialTime == initial && currentTime == initial
    {
      initialTime := initial;
      currentTime := initial;
    }

    /** ResetTimer */
    method ResetTimer()
      modifies this
      ensures currentTime == initialTime
    {
      currentTime := initialTime;
    }

    /** TimeUp: the clock goes to 0 and is reset; the agents' EndEpisode
        calls are left out. */
    method TimeUp()
      modifies this
      ensures currentTime == initialTime
    {
      currentTime := 0.0;
      ResetTimer();
    }

    /** Update, given whether the trainer is connected and player1's step
        counters; returns whether TimeUp ran. */
    method Update(dt: real, training: bool, player1: Option<StepInfo>) returns (timeUp: bool)
      modifies this
      ensures training && player1.Some? && player1.value.maxStep > 0 ==>
                !timeUp &&
                currentTime == TrainingTime(player1.value.stepCount, player1.value.maxStep, initialTime)
      ensures training && !(player1.Some? && player1.value.maxStep > 0) ==>
                !timeUp && currentTime == old(currentTime)
      ensures !training ==> (currentTime, timeUp) == PlayTick(old(currentTime), initialTime, dt)
    {
      timeUp := false;
      if training {
        if player1.Some? && player1.value.maxStep > 0 {
          var ratio := 1.0 - (player1.value.stepCount as real / player1.value.maxStep as real);
          currentTime := ratio * initialTime;
        }
      } else {
        if currentTime > 0.0 {
          currentTime := currentTime - dt;
          if currentTime <= 0.0 {
            TimeUp();
            timeUp := true;
          }
        }
      }
    }
  }
}
