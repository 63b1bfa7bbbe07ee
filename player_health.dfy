/** PlayerHealth: a hit-point counter clamped to [0, maxHp], a slider showing
    the ratio, and a death notification when a hit empties it. */
module Health {
  import opened Common

  /** currentHp after TakeDamage(damage): the drop, clamped with Mathf.Clamp
      to [0, maxHp]. */
  function HpAfter(hp: real, maxHp: real, damage: int): (r: real)
    ensures maxHp >= 0.0 ==> 0.0 <= r <= maxHp
    ensures maxHp > 0.0 ==> (r == 0.0 <==> hp - damage as real <= 0.0)
    ensures 0.0 <= hp - damage as real <= maxHp ==> r == hp - damage as real
    ensures 0.0 <= hp <= maxHp && damage >= 0 ==> r <= hp
  {
    Clamp(hp - damage as real, 0.0, maxHp)
  }

  /** The slider value currentHp / maxHp; a zero maximum yields no number. */
  function SliderValue(hp: real, maxHp: real): (r: Option<real>)
    ensures r.Some? <==> maxHp != 0.0
    ensures maxHp > 0.0 && 0.0 <= hp <= maxHp ==> 0.0 <= r.value <= 1.0
    ensures maxHp > 0.0 ==> (r.value == 1.0 <==> hp == maxHp)
  {
    if maxHp == 0.0 then None
    else
      var v := hp / maxHp;
      assert v * maxHp == hp;
      Some(v)
  }

  function IntSum(ds: seq<int>): int
  {
    if ds == [] then 0 else ds[0] + IntSum(ds[1..])
  }

  /** currentHp after a series of TakeDamage calls. */
  function HpAfterAll(hp: real, maxHp: real, ds: seq<int>): real
    decreases |ds|
  {
    if ds == [] then hp else HpAfterAll(HpAfter(hp, maxHp, ds[0]), maxHp, ds[1..])
  }

  /** Non-negative hits add up: the clamp only ever cuts the total at zero. */
  lemma {:induction false} DamageAccumulates(hp: real, maxHp: real, ds: seq<int>)
    requires 0.0 <= hp <= maxHp
    requires forall i :: 0 <= i < |ds| ==> ds[i] >= 0
    ensures HpAfterAll(hp, maxHp, ds) == Max(0.0, hp - IntSum(ds) as real)
    decreases |ds|
  {
    if ds != [] {
      var next := HpAfter(hp, maxHp, ds[0]);
      DamageAccumulates(next, maxHp, ds[1..]);
      IntSumNonneg(ds[1..]);
    }
  }

  lemma {:induction false} IntSumNonneg(ds: seq<int>)
    requires forall i :: 0 <= i < |ds| ==> ds[i] >= 0
    ensures IntSum(ds) >= 0
    decreases |ds|
  {
    if ds != [] {
      IntSumNonneg(ds[1..]);
    }
  }

  /** A contact: whether it is tagged Enemy_Bullet and the DamageValue of
      its EnemyBullet, if any. */
  datatype Contact = Contact(enemyBulletTag: bool, bulletDamage: Option<int>)

  class PlayerHealth {
    const maxHp: real
    const hasSlider: bool
    var currentHp: real
    var slider: Option<real>    // hpSlider.value once set

    /** Awake: ResetHp. */
    constructor (maxHealth: real, withSlider: bool)
      ensures maxHp == maxHealth && hasSlider == withSlider
      ensures currentHp == maxHp
      ensures slider == if hasSlider then SliderValue(maxHp, maxHp) else None
    {
      maxHp := maxHealth;
      hasSlider := withSlider;
      currentHp := maxHealth;
      slider := if withSlider then SliderValue(maxHealth, maxHealth) else None;
    }

    /** UpdateUI */
    method UpdateUI()
      modifies this
      ensures currentHp == old(currentHp)
      ensures slider == if hasSlider then SliderValue(currentHp, maxHp) else old(slider)
    {
      if hasSlider {
        slider := SliderValue(currentHp, maxHp);
      }
    }

    /** ResetHp */
    method ResetHp()
      modifies this
      ensures currentHp == maxHp
      ensures slider == if hasSlider then SliderValue(maxHp, maxHp) else old(slider)
    {
      currentHp := maxHp;
      UpdateUI();
    }

    /** TakeDamage: returns whether OnDeath ran. */
    method TakeDamage(damage: int) returns (died: bool)
      modifies this
      ensures currentHp == HpAfter(old(currentHp), maxHp, damage)
      ensures died <==> currentHp <= 0.0
      ensures maxHp > 0.0 ==> (died <==> old(currentHp) - damage as real <= 0.0)
      ensures maxHp >= 0.0 ==> (died <==> currentHp == 0.0)
      ensures slider == if hasSlider then SliderValue(currentHp, maxHp) else old(slider)
    {
      currentHp := currentHp - damage as real;
      currentHp := Clamp(currentHp, 0.0, maxHp);
      UpdateUI();
      died := currentHp <= 0.0;
    }

    /** OnTriggerEnter2D: any Enemy_Bullet with an EnemyBullet deals its
        damage and is deactivated, whichever team fired it. */
    method OnTriggerEnter2D(c: Contact) returns (died: bool, deactivate: bool)
      modifies this
      ensures deactivate <==> c.enemyBulletTag && c.bulletDamage.Some?
      ensures deactivate ==> currentHp == HpAfter(old(currentHp), maxHp, c.bulletDamage.value)
      ensures !deactivate ==> currentHp == old(currentHp) && slider == old(slider) && !died
      ensures died <==> deactivate && currentHp <= 0.0
    {
      died, deactivate := false, false;
      if c.enemyBulletTag && c.bulletDamage.Some? {
        died := TakeDamage(c.bulletDamage.value);
        deactivate := true;
      }
    }
  }
}
