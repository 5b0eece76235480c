/**
 * The abstract upgrade definition: the fixed set of traits it may modify,
 * the per-kind level check, and the per-kind lookup of a modification
 * function for a (trait, stack) pair.
 */
module Upgrades {

  import opened Wrappers
  import opened Traits

  /** The registry key of an upgrade. */
  type UpgradeId = string

  /** The runtime descriptor of an installed upgrade: which one, at which level. */
  datatype UpgradeStack = UpgradeStack(upgrade: UpgradeId, level: int)

  /**
   * What a concrete upgrade kind supplies for the abstract members:
   * its level rule, whether the data of a stack matches it, and its
   * modification functions on erased values, keyed by trait id.
   */
  datatype Kind<!V> = Kind(
    validLevel: int -> bool,
    stackMatches: UpgradeStack -> bool,
    modificator: (TraitId, UpgradeStack) -> Option<V -> V>)

  /** An upgrade: the final applied set of the base class plus its kind. */
  datatype UpgradeDef<!V> = UpgradeDef(modifications: set<TraitId>, kind: Kind<V>)

  /**
   * The obligation every concrete kind takes on: a modification function may
   * be absent only when the trait is outside the applied set or the stack
   * does not match. Nothing is demanded in the other direction.
   */
  ghost predicate Honours<V>(modifications: set<TraitId>, kind: Kind<V>)
  {
    forall id, stack ::
      id in modifications && kind.stackMatches(stack) ==> kind.modificator(id, stack).Some?
  }

  /** Upgrades whose kind keeps the documented contract. */
  type Upgrade<!V> = u: UpgradeDef<V> | Honours(u.modifications, u.kind)
    witness UpgradeDef({}, Kind(_ => false, _ => false, (_, _) => None))

  /**
   * The getter of the applied set; the base class owns it and kinds cannot
   * replace it. Every trait it reports gets a modification function from a
   * matching stack.
   */
  function GetAppliedModifications<V>(u: Upgrade<V>): (applied: set<TraitId>)
    ensures forall id, stack ::
      id in applied && StackMatches(u, stack) ==> u.kind.modificator(id, stack).Some?
  {
    u.modifications
  }

  /** Constructs an upgrade from the applied set its kind declares. */
  function NewUpgrade<V>(modifications: set<TraitId>, kind: Kind<V>): (u: Upgrade<V>)
    requires Honours(modifications, kind)
    ensures GetAppliedModifications(u) == modifications
    ensures u.kind == kind
  {
    UpgradeDef(modifications, kind)
  }

  /** The level rule of the upgrade's kind. */
  function IsValidLevel<V>(u: Upgrade<V>, level: int): bool
  {
    u.kind.validLevel(level)
  }

  /** Whether the data in `stack` matches this upgrade, as its kind decides. */
  function StackMatches<V>(u: Upgrade<V>, stack: UpgradeStack): bool
  {
    u.kind.stackMatches(stack)
  }

  /**
   * The modification function for trait `t` under `stack`, on the trait's own
   * value type. Absent only if the trait is not applied or the stack does
   * not match.
   */
  function GetModificatorFor<T, V>(u: Upgrade<V>, t: Trait<T, V>, stack: UpgradeStack): (r: Option<T -> T>)
    ensures r.None? ==> t.id !in GetAppliedModifications(u) || !StackMatches(u, stack)
  {
    match u.kind.modificator(t.id, stack)
    case None => None
    case Some(op) => Some(x => t.restore(op(t.erase(x))))
  }

  /** The key of the blank upgrade: the path `blank` under the mod's namespace. */
  function UpgradeBlankRl(modId: string): (id: UpgradeId)
    ensures |id| == |modId| + |":blank"|
    ensures id[..|modId|] == modId && id[|modId|..] == ":blank"
  {
    modId + ":blank"
  }

  /**
   * The getter is final: giving an existing upgrade another kind that keeps
   * the contract leaves its applied set as it was.
   */
  lemma AppliedModificationsIndependentOfKind<V>(u: Upgrade<V>, k: Kind<V>)
    requires Honours(u.modifications, k)
    ensures GetAppliedModifications(u.(kind := k)) == GetAppliedModifications(u)
  {
  }

  /**
   * The contract is one-way: for any trait there is an upgrade that does not
   * apply it and still hands out a modification function for it.
   */
  lemma AbsenceOutsideAppliedNotPromised<T, V>(t: Trait<T, V>)
    ensures exists u: Upgrade<V>, stack: UpgradeStack ::
      t.id !in GetAppliedModifications(u) && GetModificatorFor(u, t, stack).Some?
  {
    var u := NewUpgrade({}, Kind(_ => true, _ => true, (_, _) => Some(v => v)));
    var stack := UpgradeStack("", 0);
    assert t.id !in GetAppliedModifications(u) && GetModificatorFor(u, t, stack).Some?;
  }

  /**
   * Applying the trait is not enough for presence: when the stack data does
   * not match, an upgrade may answer with no function.
   */
  lemma AbsenceOnMismatchAllowed<T, V>(t: Trait<T, V>)
    ensures exists u: Upgrade<V>, stack: UpgradeStack ::
      t.id in GetAppliedModifications(u) && !StackMatches(u, stack) && GetModificatorFor(u, t, stack).None?
  {
    var u := NewUpgrade({t.id}, Kind(_ => true, _ => false, (_, _) => None));
    var stack := UpgradeStack("", 0);
    assert t.id in GetAppliedModifications(u) && !StackMatches(u, stack) && GetModificatorFor(u, t, stack).None?;
  }

  /** The base class fixes no level range: every level is accepted by some kind and refused by another. */
  lemma LevelRuleLeftToKinds<V>(modifications: set<TraitId>, level: int)
    ensures exists u: Upgrade<V> :: GetAppliedModifications(u) == modifications && IsValidLevel(u, level)
    ensures exists u: Upgrade<V> :: GetAppliedModifications(u) == modifications && !IsValidLevel(u, level)
  {
    var accepting: Upgrade<V> := NewUpgrade(modifications, Kind(_ => true, _ => true, (_, _) => Some(v => v)));
    var refusing: Upgrade<V> := NewUpgrade(modifications, Kind(_ => false, _ => true, (_, _) => Some(v => v)));
    assert IsValidLevel(accepting, level) && !IsValidLevel(refusing, level);
  }

  /**
   * The typed function is the kind's erased function seen through the
   * trait's own type: when the erased function maps the erasure of `x` to
   * the erasure of `y`, the returned `T -> T` maps `x` to `y`.
   */
  lemma ModificatorPreservesTraitType<T(!new), V>(u: Upgrade<V>, t: Trait<T, V>, stack: UpgradeStack, x: T, y: T)
    requires Restores(t)
    requires u.kind.modificator(t.id, stack).Some?
    requires u.kind.modificator(t.id, stack).value(t.erase(x)) == t.erase(y)
    ensures GetModificatorFor(u, t, stack).Some?
    ensures GetModificatorFor(u, t, stack).value(x) == y
  {
  }
}
