/** Medicine.java: a consumable with a heal amount, a price, a name and a counter of uses. */
module Medicines {

  /** What calls of `use` leave behind: the use counter afterwards and the amount healed. */
  datatype UseOutcome = UseOutcome(uses: real, healed: real)

  /** One call of `Medicine.use` on a medicine with counter `uses` and heal amount `heal`, as the
      code is written. Its guard is the reverse of its doc comment: while uses remain it reports
      the medicine empty, heals nothing and keeps the counter; once the counter is 0 or less it
      heals and counts one more use. */
  function UseStep(uses: real, heal: real): (o: UseOutcome)
    ensures o.uses <= uses
    ensures o.uses == uses <==> 0.0 < uses
    ensures o.uses != uses ==> o.uses == uses - 1.0 && o.healed == heal
    ensures o.uses == uses ==> o.healed == 0.0
  {
    if 0.0 < uses then UseOutcome(uses, 0.0) else UseOutcome(uses - 1.0, heal)
  }

  /** `n` consecutive calls of `use`: the counter after the last one and the total healed. */
  function UseTimes(uses: real, heal: real, n: nat): (o: UseOutcome)
    decreases n
  {
    if n == 0 then UseOutcome(uses, 0.0)
    else
      var first := UseStep(uses, heal);
      var rest := UseTimes(first.uses, heal, n - 1);
      UseOutcome(rest.uses, first.healed + rest.healed)
  }

  /** However many times a medicine is used, its counter never grows. */
  lemma {:induction false} UsesNeverIncrease(uses: real, heal: real, n: nat)
    ensures UseTimes(uses, heal, n).uses <= uses
    decreases n
  {
    if n > 0 {
      UsesNeverIncrease(UseStep(uses, heal).uses, heal, n - 1);
    }
  }

  /** A medicine with uses left never heals and never changes, however often it is used. */
  lemma {:induction false} StockedMedicineNeverHeals(uses: real, heal: real, n: nat)
    requires 0.0 < uses
    ensures UseTimes(uses, heal, n) == UseOutcome(uses, 0.0)
    decreases n
  {
    if n > 0 {
      StockedMedicineNeverHeals(uses, heal, n - 1);
    }
  }

  /** A medicine whose counter is 0 or less heals in full on every use, and its counter keeps
      falling below zero. */
  lemma {:induction false} SpentMedicineAlwaysHeals(uses: real, heal: real, n: nat)
    requires uses <= 0.0
    ensures UseTimes(uses, heal, n) == UseOutcome(uses - n as real, n as real * heal)
    decreases n
  {
    if n > 0 {
      SpentMedicineAlwaysHeals(uses - 1.0, heal, n - 1);
    }
  }

  /** What the doc comment of `use` describes: "the value to heal if there are uses available,
      else 0", removing one use when it heals. The code does not implement this. */
  function DocumentedUseStep(uses: real, heal: real): (o: UseOutcome)
    ensures 0.0 < uses ==> o.healed == heal && o.uses == uses - 1.0
    ensures uses <= 0.0 ==> o.healed == 0.0 && o.uses == uses
  {
    if 0.0 < uses then UseOutcome(uses - 1.0, heal) else UseOutcome(uses, 0.0)
  }

  /** For a medicine that heals anything at all, the code and its doc comment disagree on every
      counter value: each heals exactly when the other does not. */
  lemma UseContradictsDocComment(uses: real, heal: real)
    requires heal != 0.0
    ensures (UseStep(uses, heal).healed == 0.0) <==> (DocumentedUseStep(uses, heal).healed != 0.0)
  {
  }

  class Medicine {
    var uses: real
    const heal: real
    const price: real
    const name: string

    constructor (heal: real, uses: real, name: string, price: real)
      ensures this.heal == heal && this.uses == uses && this.name == name && this.price == price
    {
      this.heal := heal;
      this.uses := uses;
      this.name := name;
      this.price := price;
    }

    /** The constructor's price: the field is `const`, so no call changes it. */
    function GetPrice(): (p: real)
      ensures p == price
    {
      price
    }

    /** The constructor's name: the field is `const`, so no call changes it. */
    function GetName(): (n: string)
      ensures n == name
    {
      name
    }

    /** Uses the medicine once; returns the amount it heals. */
    method Use() returns (healed: real)
      modifies this`uses
      ensures UseOutcome(uses, healed) == UseStep(old(uses), heal)
    {
      if 0.0 < uses {
        return 0.0;
      }
      uses := uses - 1.0;
      return heal;
    }
  }
}
