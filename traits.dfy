/**
 * Traits: typed identity tokens for the attributes an upgrade can modify.
 *
 * A `Trait<T, V>` is identified by its key `id`; `T` is the type of the
 * values the trait stands for. Upgrade kinds store their modification
 * functions on erased values of one representation type `V`, keyed by trait
 * id; `erase` and `restore` convert between a trait's own type and that
 * representation, so that a generic lookup can hand back a `T -> T`.
 */
module Traits {

  /** The namespaced key a trait is registered under. */
  type TraitId = string

  datatype Trait<!T, !V> = Trait(id: TraitId, erase: T -> V, restore: V -> T)

  /** The cast back from the erased representation undoes the erasure. */
  ghost predicate Restores<T(!new), V>(t: Trait<T, V>)
  {
    forall x: T :: t.restore(t.erase(x)) == x
  }
}
