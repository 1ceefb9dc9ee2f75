/**
 * Decoding one comma-separated line into the state of a new boat, as both the CSV import and
 * the interactive "add" do it: split on commas, then read fields 0..5 in order as kind, name,
 * year, make and model, length and purchase price.
 */
module LineDecoding {
  import opened Wrappers
  import opened JavaText
  import opened BoatTypes
  import opened Boats

  /**
   * Double.parseDouble, left abstract: the number a text denotes, or None where it throws a
   * NumberFormatException.
   */
  type DoubleParser = string -> Option<real>

  /** Why a line did not give a boat. */
  datatype DecodeError =
    | Malformed(field: nat)         // IllegalArgumentException or NumberFormatException on that field; caught
    | IndexOutOfBounds(index: nat)  // ArrayIndexOutOfBoundsException reading that field; not caught

  /** Whether the callers' handlers catch the error (they catch IllegalArgumentException only). */
  predicate Caught(e: DecodeError)
  {
    e.Malformed?
  }

  /** BoatType.valueOf(text.toUpperCase()): the kind text names, in any letter case. */
  function ParseKind(text: string): (r: Option<BoatType>)
    ensures forall t :: r == Some(t) <==> ToUpperCase(text) == Name(t)
  {
    ValueOf(ToUpperCase(text))
  }

  /** Texts equal up to letter case name the same kind, or are both rejected. */
  lemma ParseKindIgnoresCase(a: string, b: string)
    requires EqualsIgnoreCase(a, b)
    ensures ParseKind(a) == ParseKind(b)
  {
    EqualsIgnoreCaseIffSameUpper(a, b);
  }

  /** The rendered name of a kind parses back to that kind. */
  lemma {:induction false} ParseKindOfName(t: BoatType)
    ensures ParseKind(Name(t)) == Some(t)
  {
    match t
    case SAILING =>
      assert ToUpperCase("SAILING") == "SAILING";
    case POWER =>
      assert ToUpperCase("POWER") == "POWER";
  }

  /**
   * The six array reads and four parses of the decoding block, in the order Java evaluates
   * them: an index error is raised only when no earlier field has failed to parse.
   */
  function DecodeFields(f: seq<string>, parseDouble: DoubleParser): (r: Result<Record, DecodeError>)
    ensures r.Ok? <==>
      |f| >= 6 && ParseKind(f[0]).Some? && ParseInt(f[2]).Some?
      && parseDouble(f[4]).Some? && parseDouble(f[5]).Some?
    ensures r.Ok? ==>
      r.value == Initial(ParseKind(f[0]).value, f[1], ParseInt(f[2]).value, f[3],
                         parseDouble(f[4]).value, parseDouble(f[5]).value)
    ensures r.Err? && r.error.IndexOutOfBounds? ==> r.error.index == |f| < 6
    ensures r.Err? && r.error.Malformed? ==> r.error.field in {0, 2, 4, 5} && r.error.field < |f|
    ensures r == Err(Malformed(0)) <==> |f| >= 1 && ParseKind(f[0]).None?
    ensures r == Err(Malformed(2)) <==>
      |f| >= 3 && ParseKind(f[0]).Some? && ParseInt(f[2]).None?
    ensures r == Err(Malformed(4)) <==>
      |f| >= 5 && ParseKind(f[0]).Some? && ParseInt(f[2]).Some? && parseDouble(f[4]).None?
    ensures r == Err(Malformed(5)) <==>
      |f| >= 6 && ParseKind(f[0]).Some? && ParseInt(f[2]).Some? && parseDouble(f[4]).Some?
      && parseDouble(f[5]).None?
    ensures r.Err? && r.error.IndexOutOfBounds? <==>
      |f| < 6 && (|f| > 0 ==> ParseKind(f[0]).Some?) && (|f| > 2 ==> ParseInt(f[2]).Some?)
      && (|f| > 4 ==> parseDouble(f[4]).Some?)
  {
    if |f| < 1 then Err(IndexOutOfBounds(0))
    else match ParseKind(f[0])
      case None => Err(Malformed(0))
      case Some(kind) =>
        if |f| < 2 then Err(IndexOutOfBounds(1))
        else if |f| < 3 then Err(IndexOutOfBounds(2))
        else match ParseInt(f[2])
          case None => Err(Malformed(2))
          case Some(year) =>
            if |f| < 4 then Err(IndexOutOfBounds(3))
            else if |f| < 5 then Err(IndexOutOfBounds(4))
            else match parseDouble(f[4])
              case None => Err(Malformed(4))
              case Some(length) =>
                if |f| < 6 then Err(IndexOutOfBounds(5))
                else match parseDouble(f[5])
                  case None => Err(Malformed(5))
                  case Some(price) => Ok(Initial(kind, f[1], year, f[3], length, price))
  }

  /**
   * The decoding block applied to one line of text. A line without a comma never gives a boat,
   * and a decoded boat is new and has a comma-free name and make and model.
   */
  function DecodeLine(line: string, parseDouble: DoubleParser): (r: Result<Record, DecodeError>)
    ensures r.Ok? ==> ',' in line
    ensures r.Ok? ==> r.value.maintenanceExpense == 0.0
    ensures r.Ok? ==> CommaFree(r.value.name) && CommaFree(r.value.makeAndModel)
  {
    DecodeFields(Split(line), parseDouble)
  }

  /** Fields after the sixth are never read. */
  lemma ExtraFieldsIgnored(f: seq<string>, parseDouble: DoubleParser)
    requires |f| >= 6
    ensures DecodeFields(f, parseDouble) == DecodeFields(f[..6], parseDouble)
  {
  }

  /**
   * A line made of comma-free fields whose sixth field is not empty decodes from its first six
   * fields alone, name and make-and-model kept verbatim.
   */
  lemma DecodeJoinedFields(f: seq<string>, parseDouble: DoubleParser)
    requires |f| >= 6
    requires forall k :: 0 <= k < |f| ==> CommaFree(f[k])
    requires f[5] != ""
    ensures DecodeLine(Join(f), parseDouble) == DecodeFields(f[..6], parseDouble)
  {
    SplitOfJoin(f);
    var kept := DropTrailingEmpty(f);
    assert |kept| >= 6 by {
      assert f[5] != "";
    }
    assert kept[..6] == f[..6];
    ExtraFieldsIgnored(kept, parseDouble);
  }

  /**
   * An empty price at the end of a line is dropped by the split, so a line whose other fields
   * parse fails with the uncaught index error rather than a number format error.
   */
  lemma EmptyPriceIsIndexError(f: seq<string>, parseDouble: DoubleParser)
    requires |f| == 6
    requires forall k :: 0 <= k < 6 ==> CommaFree(f[k])
    requires f[4] != "" && f[5] == ""
    requires ParseKind(f[0]).Some? && ParseInt(f[2]).Some? && parseDouble(f[4]).Some?
    ensures DecodeLine(Join(f), parseDouble) == Err(IndexOutOfBounds(5))
  {
    SplitOfJoin(f);
    var kept := DropTrailingEmpty(f);
    assert |kept| == 5 by {
      assert f[..5] + [f[5]] == f;
      assert DropTrailingEmpty(f) == DropTrailingEmpty(f[..5]);
    }
    assert kept == f[..5];
  }

  lemma ParseYear2020()
    ensures ParseInt("2020") == Some(2020)
  {
    assert AllDigits("2020");
    assert "2020"[..3] == "202" && "202"[..2] == "20" && "20"[..1] == "2" && "2"[..0] == "";
  }

  const SeekerFields: seq<string> := ["Power", "Seeker", "2020", "Bayliner 19", "19.5", "22000.00"]
  const CatamaranFields: seq<string> := ["Catamaran", "Breeze", "2019", "X", "20", "1000"]

  lemma SeekerCommaFree()
    ensures forall k :: 0 <= k < |SeekerFields| ==> CommaFree(SeekerFields[k])
  {
  }

  lemma CatamaranCommaFree()
    ensures forall k :: 0 <= k < |CatamaranFields| ==> CommaFree(CatamaranFields[k])
  {
  }

  /** The line "Power,Seeker,2020,Bayliner 19,19.5,22000.00" decodes to the expected boat. */
  lemma DecodeSeeker(parseDouble: DoubleParser)
    requires parseDouble("19.5") == Some(19.5) && parseDouble("22000.00") == Some(22000.0)
    ensures DecodeLine(Join(SeekerFields), parseDouble)
            == Ok(Record(POWER, "Seeker", 2020, "Bayliner 19", 19.5, 22000.0, 0.0))
  {
    SeekerCommaFree();
    DecodeJoinedFields(SeekerFields, parseDouble);
    assert SeekerFields[..6] == SeekerFields;
    ParseKindPower();
    ParseYear2020();
  }

  lemma ParseKindPower()
    ensures ParseKind("Power") == Some(POWER)
  {
    assert ToUpperCase("Power") == "POWER";
  }

  /** The line "Catamaran,Breeze,2019,X,20,1000" is rejected at field 0: the kind is unknown. */
  lemma DecodeUnknownKind(parseDouble: DoubleParser)
    ensures DecodeLine(Join(CatamaranFields), parseDouble) == Err(Malformed(0))
  {
    CatamaranCommaFree();
    DecodeJoinedFields(CatamaranFields, parseDouble);
    assert CatamaranFields[..6] == CatamaranFields;
    ParseKindCatamaran();
  }

  lemma ParseKindCatamaran()
    ensures ParseKind("Catamaran") == None
  {
    assert ToUpperCase("Catamaran") == "CATAMARAN";
  }

  /** Letter case does not matter for the kind. */
  lemma ParseKindSailingAnyCase()
    ensures ParseKind("sailing") == Some(SAILING)
    ensures ParseKind("Sailing") == Some(SAILING)
  {
    assert ToUpperCase("sailing") == "SAILING";
    assert ToUpperCase("Sailing") == "SAILING";
  }

  /** Surrounding spaces are not trimmed, so they make the kind unknown. */
  lemma ParseKindNoTrim()
    ensures ParseKind(" Power") == None
  {
    assert ToUpperCase(" Power") == " POWER";
  }
}
