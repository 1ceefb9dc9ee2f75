/**
 * The java.lang.String and java.lang.Integer operations the fleet tracker relies on:
 * upper-casing, case-insensitive comparison, splitting on a comma and integer parsing.
 * Case mapping is restricted to ASCII letters.
 */
module JavaText {
  import opened Wrappers

  // ---------------------------------------------------------------------------------------------
  // Case mapping (Character.toUpperCase / toLowerCase on ASCII letters)

  function UpperChar(c: char): char
  {
    if 'a' <= c <= 'z' then (c as int - 32) as char else c
  }

  function LowerChar(c: char): char
  {
    if 'A' <= c <= 'Z' then (c as int + 32) as char else c
  }

  /** String.toUpperCase: every letter replaced by its upper-case form, nothing else touched. */
  function ToUpperCase(s: string): (u: string)
    ensures |u| == |s|
    ensures forall i :: 0 <= i < |s| ==> u[i] == UpperChar(s[i])
  {
    if s == [] then [] else [UpperChar(s[0])] + ToUpperCase(s[1..])
  }

  /** The per-character test of String.regionMatches(ignoreCase = true, ...). */
  predicate CharsEqualIgnoreCase(c1: char, c2: char)
  {
    c1 == c2 || UpperChar(c1) == UpperChar(c2) || LowerChar(UpperChar(c1)) == LowerChar(UpperChar(c2))
  }

  /** String.equalsIgnoreCase: same length and every position equal up to case. */
  predicate EqualsIgnoreCase(a: string, b: string)
    ensures EqualsIgnoreCase(a, b) <==>
      |a| == |b| && forall i :: 0 <= i < |a| ==> CharsEqualIgnoreCase(a[i], b[i])
  {
    |a| == |b| && (a == [] || (CharsEqualIgnoreCase(a[0], b[0]) && EqualsIgnoreCase(a[1..], b[1..])))
  }

  /** Two strings are equal ignoring case exactly when their upper-cased forms are equal. */
  lemma {:induction false} EqualsIgnoreCaseIffSameUpper(a: string, b: string)
    ensures EqualsIgnoreCase(a, b) <==> ToUpperCase(a) == ToUpperCase(b)
  {
    if |a| == |b| && a != [] {
      EqualsIgnoreCaseIffSameUpper(a[1..], b[1..]);
      assert ToUpperCase(a) == [UpperChar(a[0])] + ToUpperCase(a[1..]);
      assert ToUpperCase(b) == [UpperChar(b[0])] + ToUpperCase(b[1..]);
    } else if |a| != |b| {
      assert |ToUpperCase(a)| != |ToUpperCase(b)|;
    }
  }

  // ---------------------------------------------------------------------------------------------
  // String.split(",") with the default limit 0

  /** All comma-separated pieces of s, empty ones included; no piece holds a comma. */
  function Pieces(s: string): (ps: seq<string>)
    ensures |ps| >= 1
  {
    if s == [] then [""]
    else if s[0] == ',' then [""] + Pieces(s[1..])
    else var rest := Pieces(s[1..]); [[s[0]] + rest[0]] + rest[1..]
  }

  /** The pieces glued back together with commas between them. */
  function Join(ps: seq<string>): string
    requires |ps| >= 1
  {
    if |ps| == 1 then ps[0] else ps[0] + "," + Join(ps[1..])
  }

  predicate CommaFree(s: string)
  {
    ',' !in s
  }

  /** The longest prefix of ps that does not end in an empty string. */
  function DropTrailingEmpty(ps: seq<string>): (r: seq<string>)
    ensures |r| <= |ps| && r == ps[..|r|]
    ensures |r| > 0 ==> r[|r| - 1] != ""
    ensures forall k :: |r| <= k < |ps| ==> ps[k] == ""
  {
    if |ps| > 0 && ps[|ps| - 1] == "" then DropTrailingEmpty(ps[..|ps| - 1]) else ps
  }

  /**
   * String.split(","): a string without a comma gives itself as the only field (even the
   * empty string); otherwise the pieces between commas with trailing empty pieces removed.
   */
  function Split(s: string): (fields: seq<string>)
    ensures ',' !in s ==> fields == [s]
    ensures forall k :: 0 <= k < |fields| ==> CommaFree(fields[k])
    ensures ',' in s && |fields| > 0 ==> fields[|fields| - 1] != ""
  {
    JoinPieces(s);
    if ',' !in s then [s] else DropTrailingEmpty(Pieces(s))
  }

  /** Splitting undoes joining: every piece comes back, commas only between them. */
  lemma {:induction false} JoinPieces(s: string)
    ensures Join(Pieces(s)) == s
    ensures forall k :: 0 <= k < |Pieces(s)| ==> CommaFree(Pieces(s)[k])
  {
    if s == [] {
    } else if s[0] == ',' {
      JoinPieces(s[1..]);
      assert Pieces(s)[1..] == Pieces(s[1..]);
    } else {
      JoinPieces(s[1..]);
      var rest := Pieces(s[1..]);
      if |rest| == 1 {
        assert Join(Pieces(s)) == [s[0]] + rest[0];
      } else {
        assert Pieces(s)[1..] == rest[1..];
        assert Join(Pieces(s)) == [s[0]] + rest[0] + "," + Join(rest[1..]);
      }
      assert [s[0]] + s[1..] == s;
      forall k | 0 <= k < |Pieces(s)| ensures CommaFree(Pieces(s)[k]) {
        if k == 0 {
          assert Pieces(s)[0] == [s[0]] + rest[0];
        } else {
          assert Pieces(s)[k] == rest[k];
        }
      }
    }
  }

  /** A comma-free prefix glues onto the first piece of what follows it. */
  lemma {:induction false} PiecesOfCommaFreePrefix(w: string, t: string)
    requires CommaFree(w)
    ensures Pieces(w + t) == [w + Pieces(t)[0]] + Pieces(t)[1..]
  {
    if w != [] {
      PiecesOfCommaFreePrefix(w[1..], t);
      assert (w + t)[1..] == w[1..] + t;
      assert [w[0]] + (w[1..] + Pieces(t)[0]) == w + Pieces(t)[0];
    } else {
      assert w + t == t;
      assert w + Pieces(t)[0] == Pieces(t)[0];
      assert [Pieces(t)[0]] + Pieces(t)[1..] == Pieces(t);
    }
  }

  /** Joining comma-free pieces and cutting at every comma gives the pieces back. */
  lemma {:induction false} PiecesOfJoin(ps: seq<string>)
    requires |ps| >= 1
    requires forall k :: 0 <= k < |ps| ==> CommaFree(ps[k])
    ensures Pieces(Join(ps)) == ps
  {
    if |ps| == 1 {
      PiecesOfCommaFreePrefix(ps[0], "");
      assert ps[0] + "" == ps[0];
    } else {
      PiecesOfJoin(ps[1..]);
      var tail := "," + Join(ps[1..]);
      assert Join(ps) == ps[0] + tail;
      PiecesOfCommaFreePrefix(ps[0], tail);
      assert tail[1..] == Join(ps[1..]);
      assert Pieces(tail) == [""] + ps[1..];
      assert ps[0] + "" == ps[0];
      assert [ps[0]] + ps[1..] == ps;
    }
  }

  /** Split on a line of two or more comma-free fields keeps them all up to the last non-empty one. */
  lemma SplitOfJoin(ps: seq<string>)
    requires |ps| >= 2
    requires forall k :: 0 <= k < |ps| ==> CommaFree(ps[k])
    ensures Split(Join(ps)) == DropTrailingEmpty(ps)
  {
    PiecesOfJoin(ps);
    assert Join(ps) == ps[0] + "," + Join(ps[1..]);
    assert Join(ps)[|ps[0]|] == ',';
  }

  // ---------------------------------------------------------------------------------------------
  // Integer.parseInt and Integer.toString

  const IntMin: int := -0x8000_0000
  const IntMax: int := 0x7fff_ffff

  predicate IsDigit(c: char)
  {
    '0' <= c <= '9'
  }

  predicate AllDigits(s: string)
  {
    forall i :: 0 <= i < |s| ==> IsDigit(s[i])
  }

  /** The value of a string of decimal digits, most significant first. */
  function DigitsValue(s: string): nat
    requires AllDigits(s)
  {
    if s == [] then 0 else DigitsValue(s[..|s| - 1]) * 10 + (s[|s| - 1] as int - '0' as int)
  }

  /** The text after an optional leading '+' or '-'. */
  function Unsigned(s: string): string
  {
    if s != [] && (s[0] == '+' || s[0] == '-') then s[1..] else s
  }

  /** The value a signed decimal text denotes: minus its digits' value after a '-'. */
  function SignedValue(s: string): int
    requires AllDigits(Unsigned(s))
  {
    if s != [] && s[0] == '-' then -(DigitsValue(Unsigned(s)) as int) else DigitsValue(Unsigned(s))
  }

  /**
   * Integer.parseInt: an optional '+' or '-', then at least one decimal digit, and the value
   * must fit in a 32-bit int; anything else is a NumberFormatException (None).
   */
  function ParseInt(s: string): (r: Option<int>)
    ensures r.Some? <==>
      Unsigned(s) != [] && AllDigits(Unsigned(s)) && IntMin <= SignedValue(s) <= IntMax
    ensures r.Some? ==> r.value == SignedValue(s)
    ensures r.Some? ==> IntMin <= r.value <= IntMax
    ensures r.Some? ==> s != [] && (IsDigit(s[0]) || s[0] == '+' || s[0] == '-')
  {
    if s == [] then None
    else
      var digits := if s[0] == '+' || s[0] == '-' then s[1..] else s;
      if digits == [] || !AllDigits(digits) then None
      else
        var v: int := if s[0] == '-' then -(DigitsValue(digits) as int) else DigitsValue(digits);
        if IntMin <= v <= IntMax then Some(v) else None
  }

  function DigitChar(d: nat): char
    requires d < 10
  {
    ('0' as int + d) as char
  }

  /** The decimal digits of n, without leading zeros. */
  function NatToString(n: nat): (s: string)
    ensures |s| >= 1 && AllDigits(s)
    ensures s[0] == '0' ==> n == 0
  {
    if n < 10 then [DigitChar(n)] else NatToString(n / 10) + [DigitChar(n % 10)]
  }

  /** Integer.toString: a minus sign for negative values, then the digits. */
  function IntToString(n: int): string
  {
    if n < 0 then "-" + NatToString(-n) else NatToString(n)
  }

  lemma {:induction false} DigitsValueOfNatToString(n: nat)
    ensures DigitsValue(NatToString(n)) == n
  {
    var s := NatToString(n);
    if n >= 10 {
      DigitsValueOfNatToString(n / 10);
      assert s[..|s| - 1] == NatToString(n / 10);
    }
  }

  /** parseInt reads back every int that toString writes. */
  lemma ParseIntOfToString(n: int)
    requires IntMin <= n <= IntMax
    ensures ParseInt(IntToString(n)) == Some(n)
  {
    if n < 0 {
      var digits := NatToString(-n);
      DigitsValueOfNatToString(-n);
      assert ("-" + digits)[0] == '-';
      assert ("-" + digits)[1..] == digits;
    } else {
      var digits := NatToString(n);
      DigitsValueOfNatToString(n);
      assert IsDigit(digits[0]);
    }
  }

  /** A text of k zeros. */
  function Zeros(k: nat): (z: string)
    ensures |z| == k && forall i :: 0 <= i < k ==> z[i] == '0'
  {
    seq(k, _ => '0')
  }

  /** Digits of value zero are all zeros. */
  lemma {:induction false} DigitsValueZero(d: string)
    requires AllDigits(d) && DigitsValue(d) == 0
    ensures d == Zeros(|d|)
  {
    if d != [] {
      var init := d[..|d| - 1];
      DigitsValueZero(init);
      assert d == init + [d[|d| - 1]];
    }
  }

  /** Any decimal digits are leading zeros followed by the canonical digits of their value. */
  lemma {:induction false} DigitsAreZerosThenCanonical(d: string)
    requires d != [] && AllDigits(d)
    ensures |NatToString(DigitsValue(d))| <= |d|
    ensures d == Zeros(|d| - |NatToString(DigitsValue(d))|) + NatToString(DigitsValue(d))
  {
    var init, last := d[..|d| - 1], d[|d| - 1];
    var n, m := DigitsValue(d), DigitsValue(init);
    var l := last as int - '0' as int;
    assert n == m * 10 + l && 0 <= l < 10;
    assert d == init + [last];
    if n < 10 {
      DigitsValueZero(init);
      assert DigitChar(n) == last;
    } else {
      assert n / 10 == m && n % 10 == l;
      assert DigitChar(l) == last;
      DigitsAreZerosThenCanonical(init);
    }
  }

  /**
   * parseInt accepts only the toString form of its value, up to a leading '+', leading zeros,
   * or a '-' before zero: the sign agrees with the value and the digits are the value's digits
   * after some zeros.
   */
  lemma ParseIntReadsToString(s: string, v: int)
    requires ParseInt(s) == Some(v)
    ensures v < 0 ==> s[0] == '-'
    ensures v > 0 ==> s[0] != '-'
    ensures var digits := NatToString(if v < 0 then -v else v);
            |digits| <= |Unsigned(s)| && Unsigned(s) == Zeros(|Unsigned(s)| - |digits|) + digits
  {
    DigitsAreZerosThenCanonical(Unsigned(s));
  }
}
