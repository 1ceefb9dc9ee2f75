/**
 * One boat of the fleet: six attributes fixed at construction and a running maintenance
 * total. An expense is accepted only when the new total stays within the purchase price; a
 * negative amount passes that test and lowers the total.
 */
module Boats {
  import opened BoatTypes

  /** The state of a boat as a value: its six fixed attributes and its maintenance total. */
  datatype Record = Record(
    kind: BoatType,
    name: string,
    yearOfManufacture: int,
    makeAndModel: string,
    lengthInFeet: real,
    purchasePrice: real,
    maintenanceExpense: real)
  {
    /** The spending ceiling: the maintenance total does not exceed the purchase price. */
    predicate WithinBudget()
    {
      maintenanceExpense <= purchasePrice
    }

    /** getRemainingBudget: what may still be spent before reaching the purchase price. */
    function RemainingBudget(): real
    {
      purchasePrice - maintenanceExpense
    }
  }

  /** The state of a boat fresh from the constructor: no maintenance spent yet. */
  function Initial(kind: BoatType, name: string, yearOfManufacture: int, makeAndModel: string,
                   lengthInFeet: real, purchasePrice: real): Record
  {
    Record(kind, name, yearOfManufacture, makeAndModel, lengthInFeet, purchasePrice, 0.0)
  }

  /** A new boat respects its ceiling exactly when its purchase price is not negative. */
  lemma InitialWithinBudget(kind: BoatType, name: string, yearOfManufacture: int,
                            makeAndModel: string, lengthInFeet: real, purchasePrice: real)
    ensures Initial(kind, name, yearOfManufacture, makeAndModel, lengthInFeet, purchasePrice).WithinBudget()
            <==> purchasePrice >= 0.0
  {
  }

  /**
   * addExpense on a snapshot: the new state and whether the expense was authorised. Only the
   * ceiling is checked, so a negative amount is authorised and lowers the total.
   */
  function Authorize(r: Record, amount: real): (res: (Record, bool))
    ensures res.1 <==> amount <= r.RemainingBudget()
    ensures res.0 == r.(maintenanceExpense := res.0.maintenanceExpense)
    ensures res.0.RemainingBudget() == r.RemainingBudget() - (if res.1 then amount else 0.0)
    ensures !res.1 ==> res.0 == r
    ensures res.1 ==> res.0.WithinBudget()
    ensures r.WithinBudget() ==> res.0.WithinBudget()
  {
    if r.maintenanceExpense + amount <= r.purchasePrice then
      (r.(maintenanceExpense := r.maintenanceExpense + amount), true)
    else
      (r, false)
  }

  /** Within the ceiling, a zero expense is authorised and changes nothing. */
  lemma AuthorizeZero(r: Record)
    requires r.WithinBudget()
    ensures Authorize(r, 0.0) == (r, true)
  {
  }

  /**
   * The guard checks only the ceiling: within it, a negative amount is authorised and lowers
   * the maintenance total.
   */
  lemma NegativeExpenseAuthorized(r: Record, amount: real)
    requires r.WithinBudget() && amount < 0.0
    ensures Authorize(r, amount).1
    ensures Authorize(r, amount).0.maintenanceExpense < r.maintenanceExpense
  {
  }

  /** The state after a series of addExpense calls, in order. */
  function AfterExpenses(r: Record, amounts: seq<real>): (r': Record)
    ensures r' == r.(maintenanceExpense := r'.maintenanceExpense)
    decreases |amounts|
  {
    if amounts == [] then r else AfterExpenses(Authorize(r, amounts[0]).0, amounts[1..])
  }

  /**
   * A boat that starts within its ceiling stays within it whatever amounts are requested,
   * so its remaining budget is never negative.
   */
  lemma {:induction false} LifetimeWithinBudget(r: Record, amounts: seq<real>)
    requires r.WithinBudget()
    ensures AfterExpenses(r, amounts).WithinBudget()
    ensures AfterExpenses(r, amounts).RemainingBudget() >= 0.0
    decreases |amounts|
  {
    if amounts != [] {
      LifetimeWithinBudget(Authorize(r, amounts[0]).0, amounts[1..]);
    }
  }

  /** A boat object: the six attributes are constants, only the maintenance total changes. */
  class Boat {
    const kind: BoatType
    const name: string
    const yearOfManufacture: int
    const makeAndModel: string
    const lengthInFeet: real
    const purchasePrice: real
    var maintenanceExpense: real

    /** The boat's current state as a value. */
    function Value(): Record
      reads this
    {
      Record(kind, name, yearOfManufacture, makeAndModel, lengthInFeet, purchasePrice, maintenanceExpense)
    }

    predicate WithinBudget()
      reads this
    {
      Value().WithinBudget()
    }

    /** Every attribute is taken from its argument and the maintenance total starts at zero. */
    constructor (kind: BoatType, name: string, yearOfManufacture: int, makeAndModel: string,
                 lengthInFeet: real, purchasePrice: real)
      ensures Value() == Initial(kind, name, yearOfManufacture, makeAndModel, lengthInFeet, purchasePrice)
      ensures purchasePrice >= 0.0 ==> WithinBudget()
    {
      this.kind := kind;
      this.name := name;
      this.yearOfManufacture := yearOfManufacture;
      this.makeAndModel := makeAndModel;
      this.lengthInFeet := lengthInFeet;
      this.purchasePrice := purchasePrice;
      this.maintenanceExpense := 0.0;
    }

    /** A boat read back from a saved fleet: all seven fields restored as they were written. */
    constructor Restore(r: Record)
      ensures Value() == r
    {
      kind := r.kind;
      name := r.name;
      yearOfManufacture := r.yearOfManufacture;
      makeAndModel := r.makeAndModel;
      lengthInFeet := r.lengthInFeet;
      purchasePrice := r.purchasePrice;
      maintenanceExpense := r.maintenanceExpense;
    }

    /** getRemainingBudget: not negative exactly when the boat is within its ceiling. */
    function RemainingBudget(): (b: real)
      reads this
      ensures b == Value().RemainingBudget()
      ensures b >= 0.0 <==> WithinBudget()
    {
      purchasePrice - maintenanceExpense
    }

    /**
     * addExpense: adds amount to the maintenance total when the new total stays at or below the
     * purchase price, and otherwise changes nothing.
     */
    method AddExpense(amount: real) returns (ok: bool)
      modifies this
      ensures ok <==> old(maintenanceExpense) + amount <= purchasePrice
      ensures maintenanceExpense == if ok then old(maintenanceExpense) + amount else old(maintenanceExpense)
      ensures (Value(), ok) == Authorize(old(Value()), amount)
      ensures ok ==> WithinBudget()
      ensures old(WithinBudget()) ==> WithinBudget()
      ensures !ok ==> RemainingBudget() == old(RemainingBudget())
    {
      if maintenanceExpense + amount <= purchasePrice {
        maintenanceExpense := maintenanceExpense + amount;
        ok := true;
      } else {
        ok := false;
      }
    }
  }
}
