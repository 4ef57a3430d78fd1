/** Weapons and armor. Weapon.java and Armor.java are not part of this model: the player only
    fires its equipped weapon, refills a weapon's ammunition and reads an armor's defense, so these
    stand-ins expose exactly that and nothing of how the real classes compute it. */
module Equipment {

  /** An armor piece as the player sees it: a read-only defense value, a name and a price
      (`new Armor(2, "Light Spacesuit", 0)` builds the starter armor). */
  datatype Armor = Armor(defense: real, name: string, price: real)

  /** A weapon as the player sees it: firing yields a damage value, and a refill can be
      requested. `refills` records how many refills were requested, standing for the ammunition
      bookkeeping of the real class, and `shots` how many times it was fired. */
  class Weapon {
    const name: string
    const damage: real
    var shots: nat
    var refills: nat

    constructor (name: string, damage: real)
      ensures this.name == name && this.damage == damage && shots == 0 && refills == 0
    {
      this.name := name;
      this.damage := damage;
      shots := 0;
      refills := 0;
    }

    /** Fires the weapon once. */
    method Shoot() returns (d: real)
      modifies this`shots
      ensures d == damage && shots == old(shots) + 1
    {
      d := damage;
      shots := shots + 1;
    }

    /** Refills the weapon's ammunition. */
    method RefillAmmo()
      modifies this`refills
      ensures refills == old(refills) + 1
    {
      refills := refills + 1;
    }
  }
}
