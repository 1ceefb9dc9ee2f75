/**
 * The fleet: an ordered list of boat objects that the tracker fills from a CSV file or a saved
 * fleet, adds to, removes from, spends on and totals.
 */
module FleetManagement {
  import opened Wrappers
  import opened JavaText
  import opened Boats
  import opened LineDecoding

  // ---------------------------------------------------------------------------------------------
  // The fleet as a sequence of boat states

  /** The state of each boat in bs, in order. */
  function StatesOf(bs: seq<Boat>): (rs: seq<Record>)
    reads bs
    ensures |rs| == |bs|
    ensures forall i :: 0 <= i < |bs| ==> rs[i] == bs[i].Value()
  {
    seq(|bs|, i reads bs requires 0 <= i < |bs| => bs[i].Value())
  }

  /** No boat object appears twice in bs. */
  ghost predicate Distinct(bs: seq<Boat>)
  {
    forall i, j :: 0 <= i < j < |bs| ==> bs[i] != bs[j]
  }

  lemma DistinctRemove(bs: seq<Boat>, i: nat)
    requires Distinct(bs) && i < |bs|
    ensures Distinct(bs[..i] + bs[i + 1..])
  {
    var cs := bs[..i] + bs[i + 1..];
    forall a, b | 0 <= a < b < |cs| ensures cs[a] != cs[b] {
      var a' := if a < i then a else a + 1;
      var b' := if b < i then b else b + 1;
      assert cs[a] == bs[a'] && cs[b] == bs[b'];
    }
  }

  lemma DistinctAppend(bs: seq<Boat>, b: Boat)
    requires Distinct(bs) && b !in bs
    ensures Distinct(bs + [b])
  {
  }

  /** Deleting one boat object deletes its state from the states and keeps the rest in order. */
  lemma StatesOfRemove(bs: seq<Boat>, i: nat)
    requires i < |bs|
    ensures StatesOf(bs[..i] + bs[i + 1..]) == StatesOf(bs)[..i] + StatesOf(bs)[i + 1..]
  {
    var left := StatesOf(bs[..i] + bs[i + 1..]);
    var right := StatesOf(bs)[..i] + StatesOf(bs)[i + 1..];
    forall j | 0 <= j < |left| ensures left[j] == right[j] {
      if j < i {
        assert (bs[..i] + bs[i + 1..])[j] == bs[j];
      } else {
        assert (bs[..i] + bs[i + 1..])[j] == bs[j + 1];
      }
    }
  }

  /** The boat answers to name: String.equalsIgnoreCase on its name. */
  predicate Named(r: Record, name: string)
  {
    EqualsIgnoreCase(r.name, name)
  }

  /** The position of the first boat answering to name, if any. */
  function FirstNamed(rs: seq<Record>, name: string): (r: Option<nat>)
    ensures r.Some? ==> r.value < |rs| && Named(rs[r.value], name)
    ensures r.Some? ==> forall j :: 0 <= j < r.value ==> !Named(rs[j], name)
    ensures r.None? <==> forall j :: 0 <= j < |rs| ==> !Named(rs[j], name)
  {
    if rs == [] then None
    else if Named(rs[0], name) then Some(0)
    else match FirstNamed(rs[1..], name)
      case None => None
      case Some(i) => Some(i + 1)
  }

  /** A matching position with no match before it is the first match. */
  lemma FirstNamedIs(rs: seq<Record>, name: string, i: nat)
    requires i < |rs| && Named(rs[i], name)
    requires forall j :: 0 <= j < i ==> !Named(rs[j], name)
    ensures FirstNamed(rs, name) == Some(i)
  {
  }

  /** How many boats answer to name. */
  function CountNamed(rs: seq<Record>, name: string): nat
  {
    if rs == [] then 0 else (if Named(rs[0], name) then 1 else 0) + CountNamed(rs[1..], name)
  }

  /** The fleet without its first boat answering to name. */
  function RemoveFirstNamed(rs: seq<Record>, name: string): (r: seq<Record>)
    ensures |r| == if FirstNamed(rs, name).Some? then |rs| - 1 else |rs|
    ensures forall k :: 0 <= k < |r| ==> r[k] in rs
  {
    if rs == [] then []
    else if Named(rs[0], name) then rs[1..]
    else [rs[0]] + RemoveFirstNamed(rs[1..], name)
  }

  /** Removal deletes exactly the boat at the first matching position and keeps the others in order. */
  lemma {:induction false} RemoveFirstNamedAt(rs: seq<Record>, name: string, i: nat)
    requires FirstNamed(rs, name) == Some(i)
    ensures RemoveFirstNamed(rs, name) == rs[..i] + rs[i + 1..]
  {
    if i == 0 {
      assert rs[..0] + rs[1..] == rs[1..];
    } else {
      assert !Named(rs[0], name);
      var tail := rs[1..];
      assert FirstNamed(tail, name) == Some(i - 1);
      RemoveFirstNamedAt(tail, name, i - 1);
      assert [rs[0]] + (tail[..i - 1] + tail[i..]) == rs[..i] + rs[i + 1..];
    }
  }

  /** With no boat answering to name, removal changes nothing. */
  lemma {:induction false} RemoveFirstNamedAbsent(rs: seq<Record>, name: string)
    requires FirstNamed(rs, name).None?
    ensures RemoveFirstNamed(rs, name) == rs
  {
    if rs != [] {
      assert !Named(rs[0], name);
      RemoveFirstNamedAbsent(rs[1..], name);
      assert [rs[0]] + rs[1..] == rs;
    }
  }

  /** Removal takes away exactly one of the boats answering to name, when there is one. */
  lemma {:induction false} RemoveFirstNamedCount(rs: seq<Record>, name: string)
    ensures CountNamed(rs, name) == 0 <==> FirstNamed(rs, name).None?
    ensures CountNamed(RemoveFirstNamed(rs, name), name)
            == if CountNamed(rs, name) > 0 then CountNamed(rs, name) - 1 else 0
  {
    if rs != [] {
      RemoveFirstNamedCount(rs[1..], name);
      if !Named(rs[0], name) {
        assert ([rs[0]] + RemoveFirstNamed(rs[1..], name))[1..] == RemoveFirstNamed(rs[1..], name);
      }
    }
  }

  // ---------------------------------------------------------------------------------------------
  // Totals (printFleet)

  /** The sum of the purchase prices, added up in fleet order. */
  function TotalPaid(rs: seq<Record>): (t: real)
    ensures (forall i :: 0 <= i < |rs| ==> rs[i].purchasePrice >= 0.0) ==> t >= 0.0
  {
    if rs == [] then 0.0 else TotalPaid(rs[..|rs| - 1]) + rs[|rs| - 1].purchasePrice
  }

  /**
   * The sum of the maintenance totals, added up in fleet order. A fleet whose boats respect
   * their ceilings has spent no more than it paid.
   */
  function TotalSpent(rs: seq<Record>): (t: real)
    ensures AllWithinBudget(rs) ==> t <= TotalPaid(rs)
  {
    if rs == [] then 0.0 else TotalSpent(rs[..|rs| - 1]) + rs[|rs| - 1].maintenanceExpense
  }

  /** Every boat of the fleet is within its ceiling. */
  predicate AllWithinBudget(rs: seq<Record>)
  {
    forall i :: 0 <= i < |rs| ==> rs[i].WithinBudget()
  }

  /** Replacing one boat changes each total by that boat's difference. */
  lemma {:induction false} TotalsOfUpdate(rs: seq<Record>, i: nat, r: Record)
    requires i < |rs|
    ensures TotalPaid(rs[i := r]) == TotalPaid(rs) - rs[i].purchasePrice + r.purchasePrice
    ensures TotalSpent(rs[i := r]) == TotalSpent(rs) - rs[i].maintenanceExpense + r.maintenanceExpense
  {
    var n := |rs| - 1;
    if i < n {
      TotalsOfUpdate(rs[..n], i, r);
      assert rs[i := r][..n] == rs[..n][i := r];
    } else {
      assert rs[i := r][..n] == rs[..n];
    }
  }

  // ---------------------------------------------------------------------------------------------
  // Expenses (handleExpenses)

  /** What handleExpenses reports. */
  datatype ExpenseOutcome =
    | BoatNotFound                      // "Cannot find boat ..."
    | Authorized(totalSpent: real)      // "Expense authorized. $... spent."
    | NotPermitted(remaining: real)     // "Expense not permitted, only $... left to spend."

  /** handleExpenses on fleet states: addExpense on the first boat answering to name. */
  function ExpenseOn(rs: seq<Record>, name: string, amount: real): (res: (seq<Record>, ExpenseOutcome))
    ensures |res.0| == |rs|
    ensures res.1.BoatNotFound? <==> FirstNamed(rs, name).None?
    ensures res.1.BoatNotFound? ==> res.0 == rs
    ensures forall j :: 0 <= j < |rs| && Some(j) != FirstNamed(rs, name) ==> res.0[j] == rs[j]
    ensures FirstNamed(rs, name).Some? ==>
      var i := FirstNamed(rs, name).value;
      (res.0[i], res.1.Authorized?) == Authorize(rs[i], amount)
      && (res.1.Authorized? ==> res.1.totalSpent == res.0[i].maintenanceExpense)
      && (res.1.NotPermitted? ==> res.1.remaining == res.0[i].RemainingBudget())
    ensures AllWithinBudget(rs) ==> AllWithinBudget(res.0)
  {
    match FirstNamed(rs, name)
    case None => (rs, BoatNotFound)
    case Some(i) =>
      var (r, ok) := Authorize(rs[i], amount);
      (rs[i := r], if ok then Authorized(r.maintenanceExpense) else NotPermitted(r.RemainingBudget()))
  }

  /**
   * An authorised expense raises the fleet's total spent by exactly the amount; the total paid
   * never changes, and a refused or unmatched request changes neither.
   */
  lemma ExpenseOnTotals(rs: seq<Record>, name: string, amount: real)
    ensures TotalPaid(ExpenseOn(rs, name, amount).0) == TotalPaid(rs)
    ensures TotalSpent(ExpenseOn(rs, name, amount).0)
            == TotalSpent(rs) + (if ExpenseOn(rs, name, amount).1.Authorized? then amount else 0.0)
  {
    var first := FirstNamed(rs, name);
    if first.Some? {
      var i := first.value;
      TotalsOfUpdate(rs, i, Authorize(rs[i], amount).0);
    }
  }

  // ---------------------------------------------------------------------------------------------
  // CSV import (importFleetData)

  /** The CSV file named on the command line: its lines, or an IOException opening it. */
  datatype CsvFile = Lines(lines: seq<string>) | CannotOpen

  /** How the CSV import ended. */
  datatype ImportOutcome =
    | ReadAll                                // every line gave a boat
    | FileError                              // "Error reading CSV file", nothing read
    | LineFailed(line: nat, error: DecodeError)  // the first line that did not give a boat

  /** A decoder of one line of the file, as the decoding block of the import loop. */
  type LineDecoder = string -> Result<Record, DecodeError>

  function Decoder(parseDouble: DoubleParser): LineDecoder
  {
    line => DecodeLine(line, parseDouble)
  }

  /** Every boat the decoder gives is a new one: nothing spent on it yet. */
  ghost predicate NewBoatsOnly(decode: LineDecoder)
  {
    forall line :: decode(line).Ok? ==> decode(line).value.maintenanceExpense == 0.0
  }

  lemma DecoderGivesNewBoats(parseDouble: DoubleParser)
    ensures NewBoatsOnly(Decoder(parseDouble))
  {
  }

  /**
   * The boats the import appends, one per line in file order, up to the first line that does
   * not decode; that line and the ones after it add nothing.
   */
  function DecodeUntilFailure(lines: seq<string>, decode: LineDecoder): (res: (seq<Record>, ImportOutcome))
    ensures |res.0| <= |lines|
    ensures forall k :: 0 <= k < |res.0| ==> decode(lines[k]) == Ok(res.0[k])
    ensures res.1.ReadAll? || res.1.LineFailed?
    ensures res.1.ReadAll? ==> |res.0| == |lines|
    ensures res.1.LineFailed? ==>
      res.1.line == |res.0| < |lines| && decode(lines[res.1.line]) == Err(res.1.error)
  {
    if lines == [] then ([], ReadAll)
    else
      var first := decode(lines[0]);
      if first.Err? then ([], LineFailed(0, first.error))
      else
        var rest := DecodeUntilFailure(lines[1..], decode);
        assert forall k :: 0 <= k < |rest.0| ==> lines[1..][k] == lines[k + 1];
        ([first.value] + rest.0,
         if rest.1.LineFailed? then LineFailed(rest.1.line + 1, rest.1.error) else rest.1)
  }

  /** The import specification is determined by its contract: any result meeting it is the result. */
  lemma DecodeUntilFailureUnique(lines: seq<string>, decode: LineDecoder,
                                 imported: seq<Record>, outcome: ImportOutcome)
    requires |imported| <= |lines|
    requires forall k :: 0 <= k < |imported| ==> decode(lines[k]) == Ok(imported[k])
    requires outcome.ReadAll? || outcome.LineFailed?
    requires outcome.ReadAll? ==> |imported| == |lines|
    requires outcome.LineFailed? ==>
      outcome.line == |imported| < |lines| && decode(lines[outcome.line]) == Err(outcome.error)
    ensures DecodeUntilFailure(lines, decode) == (imported, outcome)
  {
    var res := DecodeUntilFailure(lines, decode);
    var n := |imported|;
    assert |res.0| == n;
    assert res.0 == imported;
  }

  /**
   * The import is not all-or-nothing: a good line followed by a bad one leaves the first boat
   * imported and reports the second line.
   */
  lemma ImportKeepsEarlierBoats(parseDouble: DoubleParser)
    requires parseDouble("19.5") == Some(19.5) && parseDouble("22000.00") == Some(22000.0)
    ensures DecodeUntilFailure([Join(SeekerFields), Join(CatamaranFields)], Decoder(parseDouble))
            == ([Record(BoatTypes.POWER, "Seeker", 2020, "Bayliner 19", 19.5, 22000.0, 0.0)],
                LineFailed(1, Malformed(0)))
  {
    DecodeSeeker(parseDouble);
    DecodeUnknownKind(parseDouble);
    var lines := [Join(SeekerFields), Join(CatamaranFields)];
    var decode := Decoder(parseDouble);
    assert decode(lines[0]) == Ok(Record(BoatTypes.POWER, "Seeker", 2020, "Bayliner 19", 19.5, 22000.0, 0.0));
    assert decode(lines[1]) == Err(Malformed(0));
    DecodeUntilFailureUnique(lines, decode,
      [Record(BoatTypes.POWER, "Seeker", 2020, "Bayliner 19", 19.5, 22000.0, 0.0)], LineFailed(1, Malformed(0)));
  }

  // ---------------------------------------------------------------------------------------------
  // Loading a saved fleet (loadFleetData)

  /** What reading the saved fleet file gives. */
  datatype SavedFleet =
    | NoSavedFile               // FileNotFoundException: "Starting with an empty fleet"
    | UnreadableStream          // IOException opening the object stream, before the list is cleared
    | UnreadableObject          // IOException or ClassNotFoundException in readObject, after the clear
    | Saved(records: seq<Record>)

  /**
   * The fleet after loadFleetData, given what it held before: once the list is read it replaces
   * the fleet instead of being added to it, and only a failure before the clear keeps the old
   * fleet.
   */
  function AfterLoad(before: seq<Record>, saved: SavedFleet): (r: seq<Record>)
    ensures saved.Saved? ==> r == saved.records
    ensures !saved.Saved? ==> r == before || r == []
    ensures r != before ==> saved.Saved? || saved.UnreadableObject?
  {
    match saved
    case NoSavedFile => before
    case UnreadableStream => before
    case UnreadableObject => []
    case Saved(rs) => rs
  }

  /** The clear before reading avoids duplicates: loading the same saved fleet twice is loading it once. */
  lemma LoadTwice(before: seq<Record>, saved: SavedFleet)
    ensures AfterLoad(AfterLoad(before, saved), saved) == AfterLoad(before, saved)
  {
  }

  // ---------------------------------------------------------------------------------------------
  // The fleet object

  class Fleet {
    var boats: seq<Boat>

    /** No boat object appears twice: every boat in the list was created separately. */
    ghost predicate Valid()
      reads this
    {
      Distinct(boats)
    }

    /** The fleet as the states of its boats, in list order. */
    function Records(): seq<Record>
      reads this, boats
    {
      StatesOf(boats)
    }

    /** The fleet starts empty. */
    constructor ()
      ensures Valid() && Records() == []
    {
      boats := [];
    }

    /**
     * Appends a newly created boat; its state and the states of the boats already there are
     * the given ones.
     */
    method Append(r: Record)
      requires Valid()
      requires r.maintenanceExpense == 0.0
      modifies this
      ensures Valid()
      ensures Records() == old(Records()) + [r]
      ensures |boats| == |old(boats)| + 1 && boats[..|old(boats)|] == old(boats) && fresh(boats[|boats| - 1])
    {
      var b := new Boat(r.kind, r.name, r.yearOfManufacture, r.makeAndModel, r.lengthInFeet, r.purchasePrice);
      DistinctAppend(boats, b);
      boats := boats + [b];
      assert boats[..|boats| - 1] == old(boats);
    }

    /**
     * addNewBoat: decodes the typed line and appends the boat when it decodes; otherwise the
     * fleet is unchanged (all parsing happens before the add).
     */
    method AddNewBoat(line: string, parseDouble: DoubleParser) returns (result: Result<Record, DecodeError>)
      requires Valid()
      modifies this
      ensures Valid()
      ensures result == DecodeLine(line, parseDouble)
      ensures Records() == if result.Ok? then old(Records()) + [result.value] else old(Records())
      ensures result.Ok? ==> result.value.maintenanceExpense == 0.0
    {
      result := DecodeLine(line, parseDouble);
      if result.Ok? {
        Append(result.value);
      }
    }

    /**
     * The CSV branch of importFleetData: one boat appended per line, in order, until the first
     * line that does not decode; the boats appended before it stay.
     */
    method ImportCsv(file: CsvFile, parseDouble: DoubleParser) returns (outcome: ImportOutcome)
      requires Valid()
      modifies this
      ensures Valid()
      ensures file.CannotOpen? ==> outcome == FileError && Records() == old(Records())
      ensures file.Lines? ==>
        var (imported, stop) := DecodeUntilFailure(file.lines, Decoder(parseDouble));
        outcome == stop && Records() == old(Records()) + imported
    {
      if file.CannotOpen? {
        return FileError;
      }
      DecoderGivesNewBoats(parseDouble);
      outcome := ImportLines(file.lines, Decoder(parseDouble));
    }

    /**
     * The read loop of the import: decode each line in turn and append its boat at once; stop at
     * the first line that does not decode.
     */
    method ImportLines(lines: seq<string>, decode: LineDecoder) returns (outcome: ImportOutcome)
      requires Valid()
      requires NewBoatsOnly(decode)
      modifies this
      ensures Valid()
      ensures Records() == old(Records()) + DecodeUntilFailure(lines, decode).0
      ensures outcome == DecodeUntilFailure(lines, decode).1
    {
      ghost var start := Records();
      ghost var imported: seq<Record> := [];
      var i := 0;
      while i < |lines|
        invariant 0 <= i <= |lines| && Valid()
        invariant |imported| == i
        invariant forall k :: 0 <= k < i ==> decode(lines[k]) == Ok(imported[k])
        invariant Records() == start + imported
      {
        var decoded := decode(lines[i]);
        if decoded.Err? {
          outcome := LineFailed(i, decoded.error);
          DecodeUntilFailureUnique(lines, decode, imported, outcome);
          return;
        }
        Append(decoded.value);
        imported := imported + [decoded.value];
        i := i + 1;
      }
      outcome := ReadAll;
      DecodeUntilFailureUnique(lines, decode, imported, outcome);
    }

    /**
     * loadFleetData: a missing file or an unreadable stream leaves the fleet as it was; a failure
     * reading the list itself comes after the clear and leaves the fleet empty; otherwise the
     * fleet becomes the saved boats with all seven fields restored.
     */
    method LoadFleetData(saved: SavedFleet)
      requires Valid()
      modifies this
      ensures Valid()
      ensures Records() == AfterLoad(old(Records()), saved)
    {
      if saved.UnreadableObject? {
        boats := [];
      } else if saved.Saved? {
        var rs := saved.records;
        boats := [];
        for k := 0 to |rs|
          invariant Valid()
          invariant Records() == rs[..k]
        {
          var b := new Boat.Restore(rs[k]);
          DistinctAppend(boats, b);
          boats := boats + [b];
          assert rs[..k + 1] == rs[..k] + [rs[k]];
        }
        assert rs[..|rs|] == rs;
      }
    }

    /**
     * importFleetData: with a CSV file named on the command line, imports it; with none, loads
     * the saved fleet.
     */
    method ImportFleetData(csvArgument: Option<CsvFile>, saved: SavedFleet, parseDouble: DoubleParser)
      returns (outcome: Option<ImportOutcome>)
      requires Valid()
      modifies this
      ensures Valid()
      ensures outcome.Some? <==> csvArgument.Some?
      ensures csvArgument.None? ==> Records() == AfterLoad(old(Records()), saved)
      ensures csvArgument == Some(CannotOpen) ==> outcome == Some(FileError) && Records() == old(Records())
      ensures csvArgument.Some? && csvArgument.value.Lines? ==>
        var (imported, stop) := DecodeUntilFailure(csvArgument.value.lines, Decoder(parseDouble));
        outcome == Some(stop) && Records() == old(Records()) + imported
    {
      if csvArgument.Some? {
        var o := ImportCsv(csvArgument.value, parseDouble);
        outcome := Some(o);
      } else {
        LoadFleetData(saved);
        outcome := None;
      }
    }

    /**
     * removeBoat: deletes the first boat whose name equals name ignoring case; the other boats
     * keep their order, and with no match nothing changes.
     */
    method RemoveBoat(name: string) returns (removed: bool)
      requires Valid()
      modifies this
      ensures Valid()
      ensures removed <==> FirstNamed(old(Records()), name).Some?
      ensures Records() == RemoveFirstNamed(old(Records()), name)
    {
      ghost var rs := Records();
      for index := 0 to |boats|
        invariant boats == old(boats) && Records() == rs
        invariant forall j :: 0 <= j < index ==> !Named(rs[j], name)
      {
        if EqualsIgnoreCase(boats[index].name, name) {
          FirstNamedIs(rs, name, index);
          RemoveFirstNamedAt(rs, name, index);
          StatesOfRemove(boats, index);
          DistinctRemove(boats, index);
          boats := boats[..index] + boats[index + 1..];
          return true;
        }
        assert !Named(rs[index], name);
      }
      RemoveFirstNamedAbsent(rs, name);
      return false;
    }

    /**
     * handleExpenses: calls addExpense on the first boat whose name equals name ignoring case;
     * every other boat is unchanged, and with no match nothing changes.
     */
    method HandleExpenses(name: string, amount: real) returns (outcome: ExpenseOutcome)
      requires Valid()
      modifies boats
      ensures (Records(), outcome) == ExpenseOn(old(Records()), name, amount)
    {
      ghost var rs := Records();
      for index := 0 to |boats|
        invariant Records() == rs
        invariant forall j :: 0 <= j < index ==> !Named(rs[j], name)
      {
        var boat := boats[index];
        if EqualsIgnoreCase(boat.name, name) {
          FirstNamedIs(rs, name, index);
          var ok := boat.AddExpense(amount);
          if ok {
            outcome := Authorized(boat.maintenanceExpense);
          } else {
            outcome := NotPermitted(boat.RemainingBudget());
          }
          assert forall j :: 0 <= j < |boats| && j != index ==> boats[j].Value() == rs[j];
          assert Records() == rs[index := boat.Value()];
          return;
        }
        assert !Named(rs[index], name);
      }
      outcome := BoatNotFound;
    }

    /**
     * The totals of printFleet: none for an empty fleet, otherwise the sums of the purchase
     * prices and of the maintenance totals, accumulated in list order.
     */
    method FleetTotals() returns (totals: Option<(real, real)>)
      ensures totals.None? <==> boats == []
      ensures totals.Some? ==> totals.value == (TotalPaid(Records()), TotalSpent(Records()))
    {
      if |boats| == 0 {
        return None;
      }
      var totalPaid, totalSpent := 0.0, 0.0;
      for i := 0 to |boats|
        invariant totalPaid == TotalPaid(Records()[..i])
        invariant totalSpent == TotalSpent(Records()[..i])
      {
        assert Records()[..i + 1][..i] == Records()[..i];
        totalPaid := totalPaid + boats[i].purchasePrice;
        totalSpent := totalSpent + boats[i].maintenanceExpense;
      }
      assert Records()[..|boats|] == Records();
      totals := Some((totalPaid, totalSpent));
    }
  }
}
