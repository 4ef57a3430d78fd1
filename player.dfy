/** Player.java: the player's health, money and three inventories. In each inventory the item
    at index 0 is the equipped one. */
module Players {
  import opened Equipment
  import opened Medicines
  import opened Inventory

  /** `canRun` holds while the health ratio is above this. */
  const RunThreshold: real := 0.25
  /** What `die` charges. */
  const DeathCost: real := 50.0
  /** The armor every player starts with. */
  const StarterArmor: Armor := Armor(2.0, "Light Spacesuit", 0.0)

  /** Health after a hit of `damage` against armor of `defense`: the defense is subtracted from
      the hit and the result from the health, and only the health is floored at 0. The effective
      damage is not floored, so armor stronger than the hit raises the health, without a cap. */
  function DamagedHp(hp: real, damage: real, defense: real): (r: real)
    ensures 0.0 <= r
    ensures r == 0.0 || r == hp - (damage - defense)
    ensures 0.0 <= hp - (damage - defense) ==> r == hp - (damage - defense)
    ensures damage < defense ==> hp < r
  {
    var h := hp - (damage - defense);
    if h < 0.0 then 0.0 else h
  }

  /** Health after healing by `gain`: capped at `hpMax` from above, never raised from below. */
  function HealedHp(hp: real, gain: real, hpMax: real): (r: real)
    ensures r <= hpMax
    ensures r == hpMax || r == hp + gain
    ensures hp + gain <= hpMax ==> r == hp + gain
    ensures 0.0 <= gain && hp <= hpMax ==> hp <= r
  {
    var h := hp + gain;
    if h > hpMax then hpMax else h
  }

  class Player {
    var name: string
    const hpMax: real
    var hp: real
    var money: real
    var weaponList: seq<Weapon>
    var medicineList: seq<Medicine>
    var armorList: seq<Armor>

    /** A player with full health, the given money, no weapons or medicine, and the starter armor
        equipped. */
    constructor (hpMax: real, money: real)
      ensures this.hpMax == hpMax && hp == hpMax && this.money == money && name == "Soldier"
      ensures weaponList == [] && medicineList == [] && armorList == [StarterArmor]
      ensures HasArmor() && armorList[0].defense == 2.0
    {
      this.hpMax := hpMax;
      hp := hpMax;
      this.money := money;
      name := "Soldier";
      weaponList := [];
      medicineList := [];
      armorList := [StarterArmor];
    }

    /** The name, "Soldier" until `ChooseName` replaces it. */
    function GetName(): (n: string)
      reads this
      ensures n == name
    {
      name
    }

    /** The current health. */
    function GetHp(): (h: real)
      reads this
      ensures h == hp
    {
      hp
    }

    function GetMoney(): (m: real)
      reads this
      ensures m == money
    {
      money
    }

    /** The number of weapons; the last one added sits at `GetNumWeapons() - 1`. */
    function GetNumWeapons(): (n: nat)
      reads this
      ensures n == |weaponList|
    {
      |weaponList|
    }

    method AddWeapon(weapon: Weapon)
      modifies this`weaponList
      ensures weaponList == old(weaponList) + [weapon]
      ensures HasWeapons() && weaponList[GetNumWeapons() - 1] == weapon
    {
      weaponList := weaponList + [weapon];
    }

    method AddMedicine(medicine: Medicine)
      modifies this`medicineList
      ensures medicineList == old(medicineList) + [medicine]
      ensures HasMedicine()
    {
      medicineList := medicineList + [medicine];
    }

    method AddArmor(armor: Armor)
      modifies this`armorList
      ensures armorList == old(armorList) + [armor]
      ensures HasArmor()
    {
      armorList := armorList + [armor];
    }

    /** Fires the equipped weapon. Only that weapon's shot count changes. */
    method Attack() returns (d: real)
      requires HasWeapons()
      modifies {weaponList[0]}`shots
      ensures d == weaponList[0].damage
      ensures weaponList[0].shots == old(weaponList[0].shots) + 1
    {
      d := weaponList[0].Shoot();
    }

    /** Uses the medicine at position `choice` (1-based, as the player picks it) and adds what it
        heals to the health, capped at `hpMax`. Only the health and that medicine change. */
    method Heal(choice: int)
      requires 1 <= choice <= |medicineList|
      modifies this`hp, {medicineList[choice - 1]}`uses
      ensures var m := medicineList[choice - 1];
        var o := UseStep(old(m.uses), m.heal);
        m.uses == o.uses && hp == HealedHp(old(hp), o.healed, hpMax)
      ensures hp <= hpMax
    {
      var healed := medicineList[choice - 1].Use();
      hp := hp + healed;
      if hp > hpMax {
        hp := hpMax;
      }
    }

    function HasMedicine(): (b: bool)
      reads this
      ensures b <==> medicineList != []
    {
      |medicineList| > 0
    }

    /** The player is dead once the health is at or below 0; with a non-negative maximum a dead
        player can never run. */
    function IsDead(): (b: bool)
      reads this
      ensures b <==> hp <= 0.0
      ensures b && 0.0 <= hpMax ==> !CanRun()
    {
      hp <= 0.0
    }

    /** The health ratio `hp / hpMax` exceeds a quarter. A (positive) zero maximum makes the Java division
        yield an infinity or NaN, which exceeds the threshold exactly when the health is positive. */
    function CanRun(): (b: bool)
      reads this
      ensures 0.0 < hpMax ==> (b <==> hpMax < 4.0 * hp)
      ensures hpMax == 0.0 ==> (b <==> 0.0 < hp)
    {
      if hpMax == 0.0 then 0.0 < hp else RunThreshold < hp / hpMax
    }

    /** Full health; with a positive maximum a player at full health is alive and can run. */
    function IsFullHp(): (b: bool)
      reads this
      ensures b <==> hp == hpMax
      ensures b && 0.0 < hpMax ==> CanRun() && !IsDead()
    {
      hp == hpMax
    }

    /** Takes a hit of `damage` on the equipped armor. Only the health changes. */
    method SustainDamage(damage: real)
      requires HasArmor()
      modifies this`hp
      ensures hp == DamagedHp(old(hp), damage, armorList[0].defense)
      ensures 0.0 <= hp
    {
      hp := hp - (damage - armorList[0].defense);
      if hp < 0.0 {
        hp := 0.0;
      }
    }

    /** Gives the player the name typed at the console. */
    method ChooseName(newName: string)
      modifies this`name
      ensures name == newName
    {
      name := newName;
    }

    /** Picks a new weapon, then a new armor. */
    method ChangeLoadout(weaponChoice: int, armorChoice: int)
      requires HasWeapons() ==> 1 <= weaponChoice <= |weaponList|
      requires HasArmor() ==> 1 <= armorChoice <= |armorList|
      modifies this`weaponList, this`armorList
      ensures weaponList == if old(HasWeapons()) then Swapped(old(weaponList), weaponChoice - 1) else old(weaponList)
      ensures armorList == if old(HasArmor()) then Swapped(old(armorList), armorChoice - 1) else old(armorList)
    {
      EquipWeapon(weaponChoice);
      EquipArmor(armorChoice);
    }

    /** Equips the weapon at position `choice` (1-based) by swapping it with the equipped one.
        With no weapons nothing happens. Only the weapon list changes. */
    method EquipWeapon(choice: int)
      requires HasWeapons() ==> 1 <= choice <= |weaponList|
      modifies this`weaponList
      ensures weaponList == if old(HasWeapons()) then Swapped(old(weaponList), choice - 1) else old(weaponList)
    {
      if HasWeapons() {
        var index := choice - 1;
        var first := weaponList[0];
        weaponList := weaponList[0 := weaponList[index]];
        weaponList := weaponList[index := first];
      }
    }

    function HasWeapons(): (b: bool)
      reads this
      ensures b <==> 0 < GetNumWeapons()
    {
      |weaponList| > 0
    }

    /** Equips the armor at position `choice` (1-based) by swapping it with the equipped one.
        With no armor nothing happens. Only the armor list changes, and it keeps its length. */
    method EquipArmor(choice: int)
      requires HasArmor() ==> 1 <= choice <= |armorList|
      modifies this`armorList
      ensures armorList == if old(HasArmor()) then Swapped(old(armorList), choice - 1) else old(armorList)
      ensures HasArmor() == old(HasArmor())
    {
      if HasArmor() {
        var index := choice - 1;
        var first := armorList[0];
        armorList := armorList[0 := armorList[index]];
        armorList := armorList[index := first];
      }
    }

    function HasArmor(): (b: bool)
      reads this
      ensures b <==> armorList != []
    {
      |armorList| > 0
    }

    /** Equips `toEquip`, which must be in the medicine list: its first occurrence is swapped with
        the equipped medicine. Only the medicine list changes. */
    method EquipMedicine(toEquip: Medicine)
      requires toEquip in medicineList
      modifies this`medicineList
      ensures medicineList == Swapped(old(medicineList), FirstIndex(old(medicineList), toEquip))
      ensures medicineList[0] == toEquip
    {
      var index := FirstIndex(medicineList, toEquip);
      var first := medicineList[0];
      medicineList := medicineList[0 := toEquip];
      medicineList := medicineList[index := first];
    }

    /** Refills the weapon at position `weapon` (1-based). No field of the player changes. */
    method RefillWeapon(weapon: int)
      requires 1 <= weapon <= |weaponList|
      modifies {weaponList[weapon - 1]}`refills
      ensures weaponList[weapon - 1].refills == old(weaponList[weapon - 1].refills) + 1
    {
      weaponList[weapon - 1].RefillAmmo();
    }

    method AddMoney(toAdd: real)
      modifies this`money
      ensures money == old(money) + toAdd
    {
      money := money + toAdd;
    }

    /** Takes money away, without a floor: the player can go into debt. */
    method TakeMoney(toLose: real)
      modifies this`money
      ensures money == old(money) - toLose
    {
      money := money - toLose;
    }

    /** Respawns the player at full health and charges the death cost, even into debt. */
    method Die()
      modifies this`hp, this`money
      ensures hp == hpMax && IsFullHp()
      ensures money == old(money) - DeathCost
    {
      hp := hpMax;
      TakeMoney(DeathCost);
    }
  }
}
