/** GrazeDetector: an opposing bullet passing through the graze ring raises
    the special gauge once per bullet instance until the list is reset. */
module Graze {
  import opened Common
  import opened Gauge

  /** A trigger contact: whether it is tagged Enemy_Bullet, the team its
      EnemyBullet reports (read as Team, which EnemyBullet.cs does not define,
      so it is an input) if it has one, and its instance id. */
  datatype GrazeContact = GrazeContact(enemyBulletTag: bool, bulletTeam: Option<TeamSide>, id: int)

  /** An Enemy_Bullet with an EnemyBullet, near an agent, of the other team. */
  predicate Eligible(c: GrazeContact, myTeam: Option<TeamSide>)
  {
    c.enemyBulletTag && c.bulletTeam.Some? && myTeam.Some? && c.bulletTeam.value != myTeam.value
  }

  /** One contact: the grazed set after it and whether the gauge rose. */
  function GrazeStep(grazed: set<int>, c: GrazeContact, myTeam: Option<TeamSide>): (r: (set<int>, bool))
    ensures r.1 <==> Eligible(c, myTeam) && c.id !in grazed
    ensures r.0 == grazed + (if Eligible(c, myTeam) then {c.id} else {})
  {
    if Eligible(c, myTeam) && c.id !in grazed then (grazed + {c.id}, true) else (grazed, false)
  }

  /** The grazed set after a series of contacts and how many raised the gauge. */
  function GrazeAll(grazed: set<int>, cs: seq<GrazeContact>, myTeam: Option<TeamSide>): (set<int>, nat)
    decreases |cs|
  {
    if cs == [] then (grazed, 0)
    else
      var s := GrazeStep(grazed, cs[0], myTeam);
      var rest := GrazeAll(s.0, cs[1..], myTeam);
      (rest.0, rest.1 + if s.1 then 1 else 0)
  }

  /** The ids of the eligible contacts. */
  function EligibleIds(cs: seq<GrazeContact>, myTeam: Option<TeamSide>): set<int>
    decreases |cs|
  {
    if cs == [] then {}
    else (if Eligible(cs[0], myTeam) then {cs[0].id} else {}) + EligibleIds(cs[1..], myTeam)
  }

  /** Every eligible id ends up in the grazed set. */
  lemma {:induction false} GrazedIds(grazed: set<int>, cs: seq<GrazeContact>, myTeam: Option<TeamSide>)
    ensures GrazeAll(grazed, cs, myTeam).0 == grazed + EligibleIds(cs, myTeam)
    decreases |cs|
  {
    if cs != [] {
      var s := GrazeStep(grazed, cs[0], myTeam);
      GrazedIds(s.0, cs[1..], myTeam);
    }
  }

  /** Between resets the gauge rises exactly once for each eligible bullet
      id not yet grazed, however often it touches the ring. */
  lemma {:induction false} OncePerBullet(grazed: set<int>, cs: seq<GrazeContact>, myTeam: Option<TeamSide>)
    ensures GrazeAll(grazed, cs, myTeam).1 == |EligibleIds(cs, myTeam) - grazed|
    decreases |cs|
  {
    if cs != [] {
      var c := cs[0];
      var s := GrazeStep(grazed, c, myTeam);
      var e' := EligibleIds(cs[1..], myTeam);
      var rest := GrazeAll(s.0, cs[1..], myTeam);
      OncePerBullet(s.0, cs[1..], myTeam);
      assert GrazeAll(grazed, cs, myTeam) == (rest.0, rest.1 + if s.1 then 1 else 0);
      if s.1 {
        assert EligibleIds(cs, myTeam) == {c.id} + e';
        assert s.0 == grazed + {c.id};
        NewId(grazed, c.id, e');
      } else if Eligible(c, myTeam) {
        assert EligibleIds(cs, myTeam) == {c.id} + e';
        KnownId(grazed, c.id, e');
        assert s.0 == grazed;
      } else {
        assert EligibleIds(cs, myTeam) == e';
        assert s.0 == grazed;
      }
    }
  }

  /** A new id adds one to the count of new ids. */
  lemma NewId(g: set<int>, x: int, e: set<int>)
    requires x !in g
    ensures ({x} + e) - g == {x} + (e - (g + {x}))
    ensures |({x} + e) - g| == |e - (g + {x})| + 1
  {
    assert ({x} + e) - g == {x} + (e - (g + {x}));
    assert x !in e - (g + {x});
  }

  /** An id already grazed adds nothing. */
  lemma KnownId(g: set<int>, x: int, e: set<int>)
    requires x in g
    ensures ({x} + e) - g == e - g
    ensures g + {x} == g
  {
  }

  class GrazeDetector {
    const gainPerGraze: real
    const gauge: SpecialGaugeManager?
    var grazed: set<int>

    constructor (gain: real, gaugeManager: SpecialGaugeManager?)
      ensures gainPerGraze == gain && gauge == gaugeManager && grazed == {}
    {
      gainPerGraze := gain;
      gauge := gaugeManager;
      grazed := {};
    }

    /** OnTriggerEnter2D, given the MyTeam of the agent above, if any;
        returns whether the gauge was asked to rise. */
    method OnTriggerEnter2D(c: GrazeContact, myTeam: Option<TeamSide>) returns (counted: bool)
      modifies this, gauge
      ensures (grazed, counted) == GrazeStep(old(grazed), c, myTeam)
      ensures gauge != null && counted ==>
                gauge.currentGauge == GaugeAfter(old(gauge.currentGauge), gainPerGraze, gauge.maxGauge)
      ensures gauge != null && !counted ==> gauge.currentGauge == old(gauge.currentGauge)
    {
      counted := false;
      if c.enemyBulletTag {
        if c.bulletTeam.Some? && myTeam.Some? && c.bulletTeam.value != myTeam.value {
          if c.id !in grazed {
            grazed := grazed + {c.id};
            counted := true;
            if gauge != null {
              gauge.IncreaseGauge(gainPerGraze);
            }
          }
        }
      }
    }

    /** ResetGrazeList: every bullet can count again. */
    method ResetGrazeList()
      modifies this
      ensures grazed == {}
      ensures forall c, t :: GrazeStep(grazed, c, t).1 <==> Eligible(c, t)
    {
      grazed := {};
    }
  }
}
