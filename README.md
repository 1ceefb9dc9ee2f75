# Boat fleet tracker — a Dafny model

This project models the core of a small console program that keeps track of a fleet of boats.
Each boat has six fixed attributes (kind, name, year of manufacture, make and model, length in
feet, purchase price) and a running maintenance total. Money may be spent on a boat only while
the total stays within the purchase price. The fleet is a list of boats. At start-up the list is
filled from a CSV file or from a serialized snapshot of an earlier run. After that the user can
add a boat from one CSV line, remove a boat by name, print the fleet with its totals, and
request an expense on a named boat.

Layout:

- `wrappers.dfy` (`Wrappers`): the `Option` and `Result` types.
- `java_text.dfy` (`JavaText`): the Java library text operations the program relies on. These
  are `String.split(",")` with its removal of trailing empty pieces, `Integer.parseInt`, ASCII
  `toUpperCase` and `equalsIgnoreCase`.
- `boat_type.dfy` (`BoatTypes`): the two boat kinds and `BoatType.valueOf`.
- `boat.dfy` (`Boats`): the state of a boat as a value (`Record`), the expense rule on that
  value (`Authorize`), and the `Boat` class. Its six attributes are `const` and only
  `maintenanceExpense` is a `var`.
- `line_decoding.dfy` (`LineDecoding`): decoding one CSV line into a new boat, in the order
  Java evaluates the array reads and the parses.
- `fleet.dfy` (`FleetManagement`): the `Fleet` class holds the boat list, `seq<Boat>`, as a
  mutable field. Its methods are the import, the load, add, remove, the expense request and
  the totals. Each method is proved against a function on the fleet's records
  (`DecodeUntilFailure`, `AfterLoad`, `RemoveFirstNamed`, `ExpenseOn`, `TotalPaid`/`TotalSpent`).
  `Valid()` states that no boat object occurs twice in the list.

## Model

| member | source | states |
|---|---|---|
| JavaText.ToUpperCase | FleetManagement.java:109 | the upper-cased text has the same length, and each character is the ASCII upper case of the original one |
| JavaText.EqualsIgnoreCase | FleetManagement.java:173 | two names are equal ignoring case exactly when they have the same length and each pair of characters is equal after upper-casing or lower-casing |
| JavaText.EqualsIgnoreCaseIffSameUpper | FleetManagement.java:173 | two names are equal ignoring case exactly when their upper-cased forms are equal |
| JavaText.Split | FleetManagement.java:106 | a line without a comma is its own single field; otherwise no field holds a comma and the last field, if any, is not empty |
| JavaText.DropTrailingEmpty | FleetManagement.java:106 | split keeps a prefix of the pieces whose last piece is non-empty, and every dropped piece is empty |
| JavaText.PiecesOfJoin | FleetManagement.java:106 | cutting at every comma gives back the comma-free fields a line was joined from |
| JavaText.SplitOfJoin | FleetManagement.java:106 | splitting a line of two or more comma-free fields gives those fields minus the trailing empty ones |
| JavaText.ParseInt | FleetManagement.java:111 | a text parses exactly when it is an optional sign followed by one or more ASCII digits whose signed value fits in a 32-bit int, and the result is that signed value |
| JavaText.ParseIntReadsToString | FleetManagement.java:111 | every accepted text is the decimal form of its value up to a leading '+', leading zeros, or a '-' before zero |
| JavaText.ParseIntOfToString | FleetManagement.java:111 | every 32-bit int written in decimal parses back to itself |
| BoatTypes.Name | Boat.java:111-114 | a kind is rendered as its constant name, a non-empty run of upper-case letters |
| BoatTypes.ValueOf | BoatType.java:6-9 | a text gives a kind exactly when it is that kind's constant name |
| BoatTypes.ValueOfName | BoatType.java:7-8 | each kind's constant name gives back that kind |
| Boats.InitialWithinBudget | Boat.java:49-60 | a new boat has spent nothing, so it is within its ceiling exactly when its price is not negative |
| Boats.Authorize | Boat.java:91-102 | an expense is authorised exactly when it fits the remaining budget; only the maintenance total changes, by the amount; a refusal changes nothing; the ceiling is kept |
| Boats.AuthorizeZero | Boat.java:93-96 | a zero expense on a boat within its ceiling is authorised and changes nothing |
| Boats.NegativeExpenseAuthorized | Boat.java:93-94 | a negative amount is authorised and lowers the maintenance total |
| Boats.AfterExpenses | Boat.java:13-37 | after any series of expense requests, the six attributes other than the maintenance total are unchanged |
| Boats.LifetimeWithinBudget | Boat.java:91-102 | a boat that starts within its ceiling stays within it, and its remaining budget stays non-negative, whatever amounts are requested |
| Boats.Boat.constructor | Boat.java:49-60 | the new boat holds the given attributes with a zero maintenance total |
| Boats.Boat.Restore | FleetManagement.java:273 | a deserialized boat holds exactly the saved state, maintenance total included |
| Boats.Boat.RemainingBudget | Boat.java:121-124 | the remaining budget is price minus spending, non-negative exactly when the boat is within its ceiling |
| Boats.Boat.AddExpense | Boat.java:91-102 | returns true exactly when the amount fits the remaining budget, then adds it to the total; otherwise nothing changes; the ceiling is kept |
| LineDecoding.ParseKind | FleetManagement.java:109 | field 0 gives a kind exactly when its upper-cased text is that kind's name |
| LineDecoding.ParseKindIgnoresCase | FleetManagement.java:109 | field texts equal up to letter case decode to the same kind or are both rejected |
| LineDecoding.ParseKindOfName | FleetManagement.java:109 | a kind's constant name decodes back to that kind |
| LineDecoding.ParseKindSailingAnyCase | FleetManagement.java:109 | "sailing" and "Sailing" both decode to SAILING |
| LineDecoding.ParseKindNoTrim | FleetManagement.java:109 | " Power" with a leading space is rejected, because fields are not trimmed |
| LineDecoding.DecodeFields | FleetManagement.java:106-118 | a boat is produced exactly when there are at least six fields and fields 0, 2, 4, 5 parse; the boat holds those values and a zero total; a line fails with the caught parse error of field 0, 2, 4 or 5 exactly when that field is present and fails to parse while the earlier parsed fields succeed; it fails with the uncaught index error exactly when it has fewer than six fields and every parsed field it has succeeds |
| LineDecoding.DecodeLine | FleetManagement.java:106-114 | a line without a comma never gives a boat; a decoded boat has nothing spent and a comma-free name and make and model |
| LineDecoding.ExtraFieldsIgnored | FleetManagement.java:109-114 | fields after the sixth are never read |
| LineDecoding.DecodeJoinedFields | FleetManagement.java:106-114 | a line of comma-free fields with a non-empty sixth field decodes from its first six fields, the name and the make and model kept verbatim |
| LineDecoding.EmptyPriceIsIndexError | FleetManagement.java:106-114 | an empty price at the end of a line is dropped by the split, so the line fails with the uncaught index error instead of a number format error |
| LineDecoding.DecodeSeeker | FleetManagement.java:106-118 | the line "Power,Seeker,2020,Bayliner 19,19.5,22000.00" decodes to a POWER boat with those values and nothing spent |
| LineDecoding.DecodeUnknownKind | FleetManagement.java:109 | a line whose kind is "Catamaran" is rejected at field 0 with a caught error |
| FleetManagement.FirstNamed | FleetManagement.java:172-173 | the position found is the first whose name equals the requested name ignoring case; none is found exactly when no boat has that name |
| FleetManagement.RemoveFirstNamed | FleetManagement.java:172-178 | removal shortens the fleet by one exactly when some boat has the name, and keeps only boats that were there |
| FleetManagement.RemoveFirstNamedAt | FleetManagement.java:172-178 | removing by name deletes exactly the first matching boat and keeps the others in order |
| FleetManagement.RemoveFirstNamedAbsent | FleetManagement.java:172-181 | removing a name no boat has leaves the fleet unchanged |
| FleetManagement.RemoveFirstNamedCount | FleetManagement.java:172-178 | no boat is found exactly when no boat has the name; a removal lowers the number of boats with that name by one when there is one |
| FleetManagement.TotalPaid | FleetManagement.java:198-206 | the total paid of boats whose prices are not negative is not negative |
| FleetManagement.TotalSpent | FleetManagement.java:198-207 | when every boat is within its ceiling, the total spent does not exceed the total paid |
| FleetManagement.TotalsOfUpdate | FleetManagement.java:206-207 | replacing one boat changes each fleet total by that boat's difference |
| FleetManagement.ExpenseOn | FleetManagement.java:223-245 | "not found" exactly when no boat has the name, and the fleet is then unchanged; otherwise only the first matching boat changes, as the expense rule says, and the outcome reports its new total when authorised or its remaining budget when refused; a fleet whose boats are all within their ceilings stays so |
| FleetManagement.ExpenseOnTotals | FleetManagement.java:223-245 | the total paid never changes, and the total spent grows by the amount exactly when the expense is authorised |
| FleetManagement.DecodeUntilFailure | FleetManagement.java:102-124 | the import adds the boats of the lines before the first failing line, in order; the outcome names that line and its error, or reports that every line was read |
| FleetManagement.DecodeUntilFailureUnique | FleetManagement.java:102-119 | the import contract determines the boats added and the outcome |
| FleetManagement.ImportKeepsEarlierBoats | FleetManagement.java:102-124 | a file of a good line then a line with an unknown kind keeps the first boat and stops at line 1 with a caught error |
| FleetManagement.AfterLoad | FleetManagement.java:267-284 | a loaded list replaces the fleet instead of being added to it; the fleet is otherwise kept or emptied, and changes only if the stream was opened |
| FleetManagement.LoadTwice | FleetManagement.java:270-273 | loading the same saved fleet twice gives the same fleet as loading it once, so nothing is duplicated |
| FleetManagement.Fleet.constructor | FleetManagement.java:20 | the fleet starts empty |
| FleetManagement.Fleet.Append | FleetManagement.java:117-118 | a new boat object is added at the end of the fleet |
| FleetManagement.Fleet.AddNewBoat | FleetManagement.java:143-160 | the result is the line's decoding; the decoded boat is appended, and on any error the fleet is unchanged |
| FleetManagement.Fleet.ImportLines | FleetManagement.java:102-119 | the fleet gains exactly the boats the import function gives, and the outcome is the function's |
| FleetManagement.Fleet.ImportCsv | FleetManagement.java:95-124 | a file that cannot be opened changes nothing; otherwise the fleet gains the boats of the lines before the first failing line |
| FleetManagement.Fleet.LoadFleetData | FleetManagement.java:267-284 | the fleet becomes what the load gives: unchanged when there is no snapshot or its stream cannot be opened, empty when its object cannot be read, the saved boats otherwise |
| FleetManagement.Fleet.ImportFleetData | FleetManagement.java:93-131 | with a file argument the CSV import runs; without one the snapshot is loaded |
| FleetManagement.Fleet.RemoveBoat | FleetManagement.java:166-182 | reports a removal exactly when some boat has the name; the fleet becomes the reference removal of its first match |
| FleetManagement.Fleet.HandleExpenses | FleetManagement.java:217-246 | the new fleet and the outcome are those of the expense function on the old fleet |
| FleetManagement.Fleet.FleetTotals | FleetManagement.java:188-212 | no totals for an empty fleet; otherwise the sums of the purchase prices and the maintenance totals |

## Left out

- Console I/O and the menu loop (`main`, `displayMenu`, the `Scanner` prompts and messages) are not modelled. The name, the amount and the CSV line are parameters, and each outcome is a value.
- `toString` and the `printf` layout of the fleet report are not modelled; only the two totals are.
- `saveFleetData` (Java serialization to `FleetData.db`) is not modelled. The snapshot a load reads is a parameter, `SavedFleet`, that gives the saved boats or says which stage of reading failed.
- Floating point is not modelled: lengths, prices and amounts are real numbers, so rounding in `+=` and in the totals is not captured. `Double.parseDouble` is an abstract parameter, `DoubleParser`, so its trimming, exponents, NaN and infinities are not captured.
- Boats.Authorize: the comparison `maintenanceExpense + amount <= purchasePrice` is exact on reals. A NaN amount, which Java always refuses, and rounding at the boundary are not captured.
- JavaText.ToUpperCase: case mapping is ASCII only, so the locale-dependent and non-ASCII mappings of `toUpperCase` and `equalsIgnoreCase` are not captured.
- JavaText.ParseInt: only ASCII digits are accepted, so the non-ASCII decimal digits that `Character.digit` also accepts are not captured.
- How `Scanner` cuts a file into lines is not modelled; a CSV file is its sequence of lines.
- Fleet.HandleExpenses: the amount is a parameter that the source reads only after a boat matched. The `InputMismatchException` that `nextDouble` throws on a non-number ends the program and is not modelled.
- Fleet.LoadFleetData: a snapshot holding something other than a list of boats (a `ClassCastException`) is not modelled.
- An `ArrayIndexOutOfBoundsException` from a short line is not caught by either handler and ends the program. It is modelled as the outcome `IndexOutOfBounds`, which `Caught` reports as not caught.

Behaviour of the code worth knowing, as the model states it:

- The CSV import is not all-or-nothing. Boats added before the first bad line stay in the fleet, and the lines after it are not read (`ImportKeepsEarlierBoats`).
- A line with fewer than six fields ends with an uncaught index error, unless an earlier field already failed to parse. Fields after the sixth are ignored.
- Only the ceiling is checked on an expense. A negative amount is authorised and lowers the maintenance total, so the total spent is not monotone (`NegativeExpenseAuthorized`).
- The constructor does not check that the price or the length is non-negative. A boat with a negative price is outside its ceiling from the start (`InitialWithinBudget`).
- A missing snapshot, or one whose stream cannot be opened, leaves the fleet as it was; the fleet is cleared only once the stream is open. A snapshot whose object cannot be read leaves the fleet empty.
- Remove and expense both act on the first boat whose name matches ignoring case. Remove reports the name as the user typed it.
