# Upgrade definitions: a Dafny model

This project models the abstract `Upgrade` class of the trait/upgrade system
(`src/main/java/com/direwolf20/core/traits/upgrade/Upgrade.java`). An upgrade is
an immutable registry entry that can be installed into a trait container. It
declares the fixed set of traits it may modify. It decides which levels are
valid for its kind. For a (trait, upgrade stack) pair it hands out a
modification function on that trait's value type, or null.

Layout:

- `wrappers.dfy` — `Option`, the model of a nullable result.
- `traits.dfy` — `Trait<T, V>`: a trait's identity key plus the conversion
  between its value type `T` and the erased representation `V` in which kinds
  store their modification functions. `Restores` says the cast back undoes the erasure.
- `upgrade.dfy` — the upgrade itself. An upgrade is a datatype `UpgradeDef<V>`.
  It holds the base-class part (the applied set) and a `Kind<V>`, whose fields
  are, as function values, the members a concrete subclass supplies:
  `isValidLevel`, "the stack data matches", and `getModificatorFor` on erased
  values keyed by trait id. The documented obligation on subclasses
  (a function may be absent only if the trait is not applied or the stack does
  not match) is `Honours`. The subset type `Upgrade<V>` admits only upgrades
  that keep it. `GetModificatorFor<T, V>` returns `Option<T -> T>`. It turns
  the kind's erased function into one on the trait's own type, as a concrete
  subclass would by an unchecked cast.
- `example_upgrades.dfy` — an illustration that is not code from the
  repository. Two concrete kinds (a health boost with levels 1 to 3 adding
  10 per level, and a single-level speed boost) satisfy `Honours`. Lemmas work
  through three scenarios: level 2 turns 100 into 120; level 5 is invalid and
  gets no function; the speed boost gives no function for maximum health.

The applied modifications are a Dafny `set`: no duplicates and no order. The
class comment at `Upgrade.java:13` says the order of modifications may be
arbitrary. Nothing in the model folds
modifications, so no order is relied on. The getter is a function of the
upgrade value, so every call returns the same set. An upgrade never changes
after construction.

The doc comment at `Upgrade.java:39-40` says the result of
`getModificatorFor` *may only be* null when the trait is not applied or the
stack data does not match. It does not require null in those cases. The model
promises that one direction; `AbsenceOutsideAppliedNotPromised` shows the
converse is not part of the contract.

## Model

| member | source | states |
|---|---|---|
| `Upgrades.NewUpgrade` | src/main/java/com/direwolf20/core/traits/upgrade/Upgrade.java:24-30 | the applied-modifications getter of a constructed upgrade returns exactly the set passed to the constructor |
| `Upgrades.GetAppliedModifications` | src/main/java/com/direwolf20/core/traits/upgrade/Upgrade.java:28-30 | the final getter returns the upgrade's own applied set, and every trait in it gets a modification function under a matching stack |
| `Upgrades.AppliedModificationsIndependentOfKind` | src/main/java/com/direwolf20/core/traits/upgrade/Upgrade.java:22-30 | the getter is final: replacing an upgrade's kind by another that keeps the contract leaves the applied set unchanged |
| `Upgrades.IsValidLevel` | src/main/java/com/direwolf20/core/traits/upgrade/Upgrade.java:32 | the level decision is the kind's own rule; the base class adds nothing (see `LevelRuleLeftToKinds`); public in the model, `protected` in the source |
| `Upgrades.StackMatches` | src/main/java/com/direwolf20/core/traits/upgrade/Upgrade.java:39-40 | "the data in the UpgradeStack did not match" is decided by the kind alone; no meaning is fixed by the base class |
| `Upgrades.GetModificatorFor` | src/main/java/com/direwolf20/core/traits/upgrade/Upgrade.java:34-42 | an absent (null) result implies the trait is outside the applied set or the stack data does not match; equivalently, an applied trait with a matching stack always gets a function |
| `Upgrades.AbsenceOutsideAppliedNotPromised` | src/main/java/com/direwolf20/core/traits/upgrade/Upgrade.java:39-40 | the promise is one-way: for every trait some upgrade that keeps the contract does not apply it yet still returns a function for it |
| `Upgrades.AbsenceOnMismatchAllowed` | src/main/java/com/direwolf20/core/traits/upgrade/Upgrade.java:39-40 | for every trait some upgrade that keeps the contract applies it yet returns null for a stack whose data does not match |
| `Upgrades.ModificatorPreservesTraitType` | src/main/java/com/direwolf20/core/traits/upgrade/Upgrade.java:37-42 | the returned function works on the trait's own type `T`: when the kind's erased function maps the erasure of `x` to the erasure of `y`, the typed function maps `x` to `y` |
| `Upgrades.LevelRuleLeftToKinds` | src/main/java/com/direwolf20/core/traits/upgrade/Upgrade.java:32 | the base class fixes no level range: for any applied set and any level, one upgrade accepts that level and another refuses it |
| `Upgrades.UpgradeBlankRl` | src/main/java/com/direwolf20/core/traits/upgrade/Upgrade.java:20 | the blank-upgrade key is the mod id followed by `:blank` |

`IsValidLevel` and `StackMatches` carry no contract of their own: what they
return is the kind's choice, and the lemmas above state what is known about
them.

## Left out

- Forge registry machinery (`ForgeRegistryEntry`, `ResourceLocation` parsing): a foreign library; identifiers are opaque strings.
- The value of `DireCore20.MOD_ID`: it is defined outside this class, so `UpgradeBlankRl` takes the mod id as a parameter.
- Guava `ImmutableSet` internals: the applied set is a Dafny `set`.
- The internals of `Trait`, `UpgradeStack` and `ITraitContainer`: they are not part of this model. A trait is an id plus its cast; a stack is an upgrade key plus an integer level; "the stack data matches" is decided by each kind.
- `Trait.erase` and `Trait.restore` are this model's encoding of a generic lookup through a datatype field, not fields of the Java `Trait`.
- `IsValidLevel`: modelled as public; the source declares `isValidLevel` `protected`, which has no counterpart in Dafny modules.
- Java's `ClassCastException` on a wrong unchecked cast: `Trait.restore` is a total function, and `Restores` only requires it to undo `erase`.
- Resolving or folding the modifications of several installed upgrades over a container: no such algorithm is in this class, and its order is explicitly arbitrary.
- Floating-point trait values and any runtime, game-loop or concurrent use of upgrades.
- Purity of the returned function: every Dafny function is pure and deterministic, so this needs no statement.
