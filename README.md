# Space-RPG player state, in Dafny

This project models the combat-and-inventory core of a turn-based text adventure: the `Player`
(Player.java) with its health, money and three ordered inventories (weapons, medicine, armor,
each with the equipped item at index 0), and the limited-use `Medicine` (Medicine.java).

Modules, one per source component:

- `Equipment` (equipment.dfy). Stand-ins for `Weapon` and `Armor`, whose sources are not part
  of this model. An `Armor` is a value with a defense. A `Weapon` is an object whose `Shoot`
  yields its damage and is recorded in a shot counter, and whose `RefillAmmo` is recorded in a
  refill counter.
- `Inventory` (inventory.dfy). The two `ArrayList` operations the player relies on. `Swapped`
  is the equip swap done by two `set` calls. `FirstIndex` is `indexOf`, using reference
  equality, since `Medicine` does not override `equals`.
- `Medicines` (medicine.dfy). The `Medicine` class. `UseStep` is the pure effect of one
  `use()` and `UseTimes` the effect of several in a row. The class's `Use` method is proved
  against `UseStep`.
- `Players` (player.dfy). The `Player` class. Each mutating method has a field-level
  `modifies` clause (`this`hp`, `this`weaponList`, `{medicineList[choice - 1]}`uses`, ...), so
  every field it does not name is provably unchanged. Health updates are specified by the pure functions `DamagedHp` and
  `HealedHp`. Equip is specified by `Swapped`.
- `Scenarios` (scenarios.dfy). Short runs of a fresh player that pin down concrete outcomes.

Numbers that are `double` in the source are `real` here. `hpMax` is a `const`, because no
method reassigns it after construction. Console input becomes parameters:

- the 1-based choice that `getInput` would read is a parameter, with a precondition that it
  is in range;
- the name `chooseName` reads is a parameter.

The getters (`getName`, `getHp`, `getMoney`, `getNumWeapons`, `Medicine.getName`,
`Medicine.getPrice`) are field reads: `GetName`, `GetHp`, `GetMoney`, `GetNumWeapons`,
`Medicine.GetName` and `Medicine.GetPrice`.

## Where the code and its documentation differ

The model follows the code in each of these cases.

- `Medicine.use` (Medicine.java:44-51) has its guard reversed relative to its doc comment
  (Medicine.java:40-43). With uses left, it reports the medicine empty, returns 0 and keeps the
  counter. With a counter of 0 or less, it heals in full and decrements, so the counter goes
  negative.
  - `DocumentedUseStep` states the documented behaviour.
  - `UseContradictsDocComment` proves that the two disagree on every counter value whenever
    the heal amount is non-zero.
  - `StockedMedicineNeverHeals` and `SpentMedicineAlwaysHeals` show the consequences over
    repeated use.
- `sustainDamage` (Player.java:150-156) floors only the resulting health at 0. It does not
  floor the effective damage. So armor stronger than the hit raises the health, with no cap at
  `hpMax` (`DamagedHp`, `DamageScenario`, `GrazeAtFullHealth`). The invariant
  `0 <= hp <= hpMax` therefore does not hold in general. `heal` then brings an over-full
  health back down to `hpMax`.
- `canRun` divides by `hpMax`. When `hpMax` is a positive zero, IEEE 754 division gives
  +infinity, NaN or -infinity. That compares above the threshold exactly when `hp > 0`, and
  `CanRun` models it that way.

## Model

| member | source | states |
|---|---|---|
| `Medicines.UseStep` | Medicine.java:44-51 | one use never raises the counter. The counter stays put exactly when it is positive, and then nothing is healed. Otherwise it drops by exactly 1 and the full heal amount is returned |
| `Medicines.UsesNeverIncrease` | Medicine.java:44-51 | after any number of uses, the counter is at most what it was |
| `Medicines.StockedMedicineNeverHeals` | Medicine.java:44-48 | a medicine with a positive counter heals 0 in total and keeps its counter, however often it is used |
| `Medicines.SpentMedicineAlwaysHeals` | Medicine.java:49-50 | a medicine with a counter of 0 or less heals `n * heal` over `n` uses, and its counter falls by `n` |
| `Medicines.DocumentedUseStep` | Medicine.java:40-43 | the doc comment's intent: while uses are available, heal and spend one; else 0 and no change |
| `Medicines.UseContradictsDocComment` | Medicine.java:40-51 | for a non-zero heal amount, the code heals exactly when the documented behaviour does not |
| `Medicines.Medicine.constructor` | Medicine.java:17-22 | heal, uses, name and price are the arguments. Heal, price and name are `const`, so nothing modifies them afterwards |
| `Medicines.Medicine.GetPrice` | Medicine.java:28-30 | the price the constructor was given, never changed since the field is `const` |
| `Medicines.Medicine.GetName` | Medicine.java:36-38 | the name the constructor was given, never changed since the field is `const` |
| `Medicines.Medicine.Use` | Medicine.java:44-51 | the new counter and the returned heal are those of `UseStep` on the old counter. Only `uses` changes |
| `Inventory.Swapped` | Player.java:202-204 | the chosen item is now first and the old first item is at the chosen position. Every other position and the length are unchanged |
| `Inventory.SwapIsPermutation` | Player.java:202-204 | the swap keeps the same multiset of items |
| `Inventory.SwapTwiceRestores` | Player.java:202-204 | swapping the same position twice gives back the original list |
| `Inventory.FirstIndex` | Player.java:281 | the result is -1 exactly when the item is absent. Otherwise it is a position holding the item, with no earlier occurrence |
| `Players.DamagedHp` | Player.java:151-154 | the result is `max(0, hp - (damage - defense))`, so it is never negative. If armor exceeds the hit, health strictly rises |
| `Players.HealedHp` | Player.java:94-97 | the result is `min(hp + gain, hpMax)`, so it never exceeds `hpMax`. A non-negative gain never lowers health that is within the maximum |
| `Players.Player.constructor` | Player.java:28-38 | health is at its maximum, money is as given and the name is "Soldier". There are no weapons or medicine. The armor list is exactly the starter armor, with defense 2 |
| `Players.Player.GetName` | Player.java:44-46 | the player's current name ("Soldier" until `ChooseName`) |
| `Players.Player.GetHp` | Player.java:52-54 | the player's current health |
| `Players.Player.GetNumWeapons` | Player.java:235-237 | the length of the weapon list |
| `Players.Player.GetMoney` | Player.java:325-327 | the player's current money |
| `Players.Player.AddWeapon` | Player.java:60-62 | the weapon is appended to the weapon list, so the player has weapons and the new one is last. Nothing else changes |
| `Players.Player.AddMedicine` | Player.java:68-70 | the medicine is appended to the medicine list, so the player has medicine. Nothing else changes |
| `Players.Player.AddArmor` | Player.java:76-78 | the armor is appended to the armor list. Nothing else changes |
| `Players.Player.Attack` | Player.java:84-86 | returns what the equipped weapon (index 0) fires, and that weapon counts one more shot. The player's fields and every other weapon are unchanged. Requires a weapon |
| `Players.Player.Heal` | Player.java:91-100 | for a choice in `1..|medicineList|`, that medicine's counter and the health become what `UseStep` and `HealedHp` give, so health is at most `hpMax`. Only the health and that medicine change |
| `Players.Player.HasMedicine` | Player.java:118-120 | true exactly when the medicine list is non-empty |
| `Players.Player.IsDead` | Player.java:126-128 | true exactly when `hp <= 0`. Then, if `hpMax >= 0`, the player cannot run |
| `Players.Player.CanRun` | Player.java:134-136 | for `hpMax > 0`: true exactly when `hp / hpMax` exceeds the threshold 0.25 (line 13), stated as `hpMax < 4 * hp`. For `hpMax == 0`: true exactly when `hp > 0` |
| `Players.Player.IsFullHp` | Player.java:142-144 | true exactly when `hp == hpMax`. Then, if `hpMax > 0`, the player is alive and can run |
| `Players.Player.SustainDamage` | Player.java:150-156 | health becomes `DamagedHp` of the old health, the hit and the equipped armor's defense, so it is at least 0. Only the health changes |
| `Players.Player.ChooseName` | Player.java:161-165 | the name becomes the one entered. Nothing else changes |
| `Players.Player.ChangeLoadout` | Player.java:189-192 | both the weapon list and the armor list are swapped as their equip methods would do |
| `Players.Player.EquipWeapon` | Player.java:197-209 | with weapons, the list becomes `Swapped` at `choice - 1`. With none, nothing changes. Only the weapon list can change |
| `Players.Player.HasWeapons` | Player.java:227-237 | true exactly when `getNumWeapons` is positive |
| `Players.Player.EquipArmor` | Player.java:242-254 | with armor, the list becomes `Swapped` at `choice - 1`. With none, nothing changes. Whether the player has armor is unchanged |
| `Players.Player.HasArmor` | Player.java:272-274 | true exactly when the armor list is non-empty. The constructor establishes this, `AddArmor` and `EquipArmor` keep it, and nothing else touches that list |
| `Players.Player.EquipMedicine` | Player.java:280-286 | for a medicine in the list, its first occurrence is swapped with index 0, so it is equipped afterwards. Only the medicine list changes |
| `Players.Player.RefillWeapon` | Player.java:292-294 | the weapon at `weapon - 1` gets one more refill. The player's fields are unchanged |
| `Players.Player.AddMoney` | Player.java:333-336 | money grows by the amount. Nothing else changes |
| `Players.Player.TakeMoney` | Player.java:342-345 | money falls by the amount, with no floor. Nothing else changes |
| `Players.Player.Die` | Player.java:350-353 | health is reset to `hpMax` and money falls by 50, with no floor. Nothing else changes |
| `Scenarios.DamageScenario` | Player.java:150-156 | with maximum 100 and the starter armor, a hit of 10 leaves 92. A following hit of 1 leaves 93 |
| `Scenarios.GrazeAtFullHealth` | Player.java:150-156 | a hit of 1 at full health 100 gives 101, which is no longer full health |
| `Scenarios.DeathScenario` | Player.java:350-353 | a lethal hit leaves the player dead. Dying restores 100 health and costs exactly 50 |
| `Scenarios.RunThresholdScenario` | Player.java:134-136 | with maximum 100, the player can run at 26 health but not at 25 |
| `Scenarios.EquipScenario` | Player.java:197-209 | equipping the third of `[a, b, c]` gives `[c, b, a]`. Equipping it again gives `[a, b, c]` |
| `Scenarios.EquipMedicineScenario` | Player.java:280-286 | equipping the second of two distinct medicines puts it first |
| `Scenarios.HealScenario` | Medicine.java:44-51 | healing at 50 health with a one-use medicine leaves 50, and its counter stays 1. A zero-use medicine then heals to 80 and its counter becomes -1 |
| `Scenarios.LabelsSurviveUse` | Medicine.java:28-38 | after construction and a use, `getName` and `getPrice` return the constructor's name and price |
| `Scenarios.MoneyRoundTrip` | Player.java:333-345 | `addMoney(x)` followed by `takeMoney(x)` leaves the money as it was |

## Left out

- Console output: every `System.out.println`, including `showMedicine`, `showWeapons`, `showArmor`,
  `showInventory` (Player.java:105-112, 170-184, 214-221, 259-266) and `Medicine.toString`
  (Medicine.java:57-60). Only the state changes are modelled.
- `getInput` (Player.java:302-319) is a retry loop over standard input. It is modelled as the
  precondition `1 <= choice <= size` on the caller's choice. On an empty medicine list it can
  never return, so `Heal` requires a medicine.
- `chooseName` reads a line from standard input. The line is the parameter `newName`.
- The action constants `ATTACK` ... `CHANGE_MEDICINE` (Player.java:8-12) are used only by the
  external game loop.
- Weapon.java and Armor.java are not part of this model. How a weapon's shot damage depends on
  its ammunition, and what a refill does to that ammunition, are not modelled.
- Players.Player.Attack: states only that the result is the equipped weapon's stand-in damage
  and that the weapon's shot counter grows by one, because the real `Weapon.shoot` and its
  ammunition bookkeeping are not part of this model. It requires a weapon: on an empty weapon
  list (every fresh player) `weaponList.get(0)` (Player.java:85) throws
  `IndexOutOfBoundsException`, and the requires excludes that path.
- Players.Player.RefillWeapon: states only that the chosen weapon recorded one more refill,
  because the real `Weapon.refillAmmo` is not part of this model. For an out-of-range `weapon`,
  `get(weapon-1)` (Player.java:293) throws `IndexOutOfBoundsException`, and the requires
  excludes that path.
- Players.Player.EquipMedicine: requires the medicine to be in the list. For an absent
  medicine the source throws. On an empty list it throws from `get(0)` (Player.java:282) before
  any write. Otherwise `set(0, toEquip)` first overwrites the equipped medicine, and then
  `set(-1, ...)` (Player.java:284) throws. That exception path is not modelled.
- IEEE 754 `double` behaviour (rounding, overflow, NaN, signed zero) is not modelled; `real`
  is used. The one exception is the division by a positive zero `hpMax` in `canRun`.
- Players.Player.CanRun: a maximum of `-0.0`, which `real` cannot represent, reverses the IEEE
  comparisons: Java then runs exactly when `hp < 0`.
