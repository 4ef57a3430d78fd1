/** Short runs of a fresh player, each showing what a sequence of calls produces. */
module Scenarios {
  import opened Equipment
  import opened Medicines
  import opened Inventory
  import opened Players

  /** A hit of 10 against the starter armor costs 8; a hit of 1 against it adds 1 health. */
  method DamageScenario() returns (afterHit: real, afterGraze: real)
    ensures afterHit == 92.0 && afterGraze == 93.0
  {
    var p := new Player(100.0, 0.0);
    p.SustainDamage(10.0);
    afterHit := p.GetHp();
    p.SustainDamage(1.0);
    afterGraze := p.GetHp();
  }

  /** A graze on a player at full health pushes the health above the maximum. */
  method GrazeAtFullHealth() returns (hp: real, full: bool)
    ensures hp == 101.0 && !full
  {
    var p := new Player(100.0, 0.0);
    p.SustainDamage(1.0);
    hp := p.hp;
    full := p.IsFullHp();
  }

  /** A lethal hit leaves the player dead at 0 health; dying restores full health and costs 50. */
  method DeathScenario(money: real) returns (dead: bool, hp: real, moneyAfter: real)
    ensures dead && hp == 100.0 && moneyAfter == money - 50.0
  {
    var p := new Player(100.0, money);
    p.SustainDamage(500.0);
    dead := p.IsDead();
    p.Die();
    hp := p.GetHp();
    moneyAfter := p.GetMoney();
  }

  /** With a maximum of 100 the player can run at 26 health but not at 25. */
  method RunThresholdScenario() returns (at26: bool, at25: bool)
    ensures at26 && !at25
  {
    var p := new Player(100.0, 0.0);
    p.SustainDamage(76.0);
    at26 := p.CanRun();
    p.SustainDamage(3.0);
    at25 := p.CanRun();
  }

  /** Equipping the third of three weapons swaps it with the first; equipping it again undoes that. */
  method EquipScenario(a: Weapon, b: Weapon, c: Weapon) returns (once: seq<Weapon>, twice: seq<Weapon>)
    ensures once == [c, b, a] && twice == [a, b, c]
  {
    var p := new Player(100.0, 0.0);
    p.AddWeapon(a);
    p.AddWeapon(b);
    p.AddWeapon(c);
    ghost var start := p.weaponList;
    assert start == [a, b, c];
    p.EquipWeapon(3);
    once := p.weaponList;
    assert once == Swapped(start, 2);
    assert |once| == 3 && once[0] == c && once[1] == b && once[2] == a;
    p.EquipWeapon(3);
    twice := p.weaponList;
    assert twice == Swapped(Swapped(start, 2), 2);
    SwapTwiceRestores(start, 2);
  }

  /** Equipping a medicine by reference moves it to the front. */
  method EquipMedicineScenario(m1: Medicine, m2: Medicine) returns (list: seq<Medicine>)
    requires m1 != m2
    ensures list == [m2, m1]
  {
    var p := new Player(100.0, 0.0);
    p.AddMedicine(m1);
    p.AddMedicine(m2);
    p.EquipMedicine(m2);
    list := p.medicineList;
  }

  /** A medicine with one use left heals nothing; one with no uses left heals in full and its
      counter drops below zero. */
  method HealScenario() returns (afterStocked: real, stockedUses: real, afterSpent: real, spentUses: real)
    ensures afterStocked == 50.0 && stockedUses == 1.0
    ensures afterSpent == 80.0 && spentUses == -1.0
  {
    var p := new Player(100.0, 0.0);
    p.SustainDamage(52.0);
    var stocked := new Medicine(30.0, 1.0, "Stim", 10.0);
    var spent := new Medicine(30.0, 0.0, "Stim", 10.0);
    p.AddMedicine(stocked);
    p.AddMedicine(spent);
    p.Heal(1);
    afterStocked, stockedUses := p.GetHp(), stocked.uses;
    p.Heal(2);
    afterSpent, spentUses := p.GetHp(), spent.uses;
  }

  /** The price and name a medicine is built with are what its getters return, even after use. */
  method LabelsSurviveUse(heal: real, uses: real, name: string, price: real) returns (n: string, pr: real)
    ensures n == name && pr == price
  {
    var m := new Medicine(heal, uses, name, price);
    var _ := m.Use();
    n := m.GetName();
    pr := m.GetPrice();
  }

  /** Taking back money just given leaves the player's money where it was. */
  method MoneyRoundTrip(start: real, amount: real) returns (money: real)
    ensures money == start
  {
    var p := new Player(100.0, start);
    p.AddMoney(amount);
    p.TakeMoney(amount);
    money := p.GetMoney();
  }
}
