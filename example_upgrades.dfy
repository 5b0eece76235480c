/**
 * An illustration, not part of the modelled repository: two concrete upgrade
 * kinds over integer-valued traits, showing that the contract of `Upgrade`
 * can be met. Trait values are erased to `Value`.
 */
module ExampleUpgrades {

  import opened Wrappers
  import opened Traits
  import opened Upgrades

  datatype Value = IntValue(i: int) | FlagValue(b: bool)

  /** An integer trait; the cast back from a non-integer yields 0. */
  function IntTrait(id: TraitId): (t: Trait<int, Value>)
    ensures t.id == id && Restores(t)
  {
    Trait(id, (x: int) => IntValue(x), (v: Value) => if v.IntValue? then v.i else 0)
  }

  const MaxHealth: Trait<int, Value> := IntTrait("example:max_health")
  const Speed: Trait<int, Value> := IntTrait("example:speed")

  const HealthBoostId: UpgradeId := "example:health_boost"
  const SpeedBoostId: UpgradeId := "example:speed_boost"

  /** Adds `amount` to an integer value and leaves other values alone. */
  function Add(amount: int): Value -> Value
  {
    (v: Value) => if v.IntValue? then IntValue(v.i + amount) else v
  }

  /** Levels 1 to 3; each level adds 10 to the maximum health. */
  function HealthBoostKind(): Kind<Value>
  {
    Kind(
      (level: int) => 1 <= level <= 3,
      (stack: UpgradeStack) => stack.upgrade == HealthBoostId && 1 <= stack.level <= 3,
      (id: TraitId, stack: UpgradeStack) =>
        if id == MaxHealth.id && stack.upgrade == HealthBoostId && 1 <= stack.level <= 3
        then Some(Add(10 * stack.level)) else None)
  }

  /** A single level; adds 1 to the speed. */
  function SpeedBoostKind(): Kind<Value>
  {
    Kind(
      (level: int) => level == 1,
      (stack: UpgradeStack) => stack.upgrade == SpeedBoostId && stack.level == 1,
      (id: TraitId, stack: UpgradeStack) =>
        if id == Speed.id && stack.upgrade == SpeedBoostId && stack.level == 1
        then Some(Add(1)) else None)
  }

  function HealthBoost(): Upgrade<Value>
  {
    NewUpgrade({MaxHealth.id}, HealthBoostKind())
  }

  function SpeedBoost(): Upgrade<Value>
  {
    NewUpgrade({Speed.id}, SpeedBoostKind())
  }

  /** A level-2 health boost turns a maximum health of 100 into 120. */
  lemma HealthBoostAtLevelTwo()
    ensures GetModificatorFor(HealthBoost(), MaxHealth, UpgradeStack(HealthBoostId, 2)).Some?
    ensures GetModificatorFor(HealthBoost(), MaxHealth, UpgradeStack(HealthBoostId, 2)).value(100) == 120
  {
  }

  /** Level 5 is not a health-boost level, and a stack claiming it gets no function. */
  lemma HealthBoostAtLevelFive()
    ensures !IsValidLevel(HealthBoost(), 5)
    ensures GetModificatorFor(HealthBoost(), MaxHealth, UpgradeStack(HealthBoostId, 5)).None?
  {
  }

  /** The speed boost does not modify the maximum health. */
  lemma SpeedBoostLeavesMaxHealth()
    ensures GetModificatorFor(SpeedBoost(), MaxHealth, UpgradeStack(SpeedBoostId, 1)).None?
  {
  }
}
