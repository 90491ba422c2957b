/**
 * The browser's `NumberCleaner.clean`: strip non-digits, drop one leading
 * country code `55`, then one leading trunk `0`, take the two-digit DDD and
 * rebuild the number as `+55` + DDD + `9` + eight digits.
 */
module Cleaner {
  import opened Text

  /** A spreadsheet cell as the browser sees it: absent, text, or a non-negative whole number. */
  datatype Cell = Absent | Str(s: string) | Number(n: nat)

  /** JavaScript falsiness of a cell: `undefined`, `''` and `0`. */
  predicate Falsy(c: Cell) {
    c.Absent? || c == Str("") || c == Number(0)
  }

  /** `value.toString()` for a present cell. */
  function CellString(c: Cell): string {
    match c
    case Absent => "undefined"
    case Str(s) => s
    case Number(n) => NatToString(n)
  }

  datatype Status = Valid | Invalid

  datatype CleanResult = CleanResult(cleanedPhone: string, ddd: string, status: Status)

  /** The digits left once one leading `55` and then one leading `0` are removed. */
  function NationalDigits(raw: string): (d: string)
    ensures AllDigits(d)
  {
    var digits := DigitsOf(raw);
    var noCountry := if StartsWith(digits, "55") then digits[2..] else digits;
    if StartsWith(noCountry, "0") then noCountry[1..] else noCountry
  }

  /** `NumberCleaner.clean(number)`. */
  function Clean(number: Cell): (r: CleanResult)
    ensures Falsy(number) ==> r == CleanResult("", "", Invalid)
  {
    if Falsy(number) then CleanResult("", "", Invalid)
    else
      var raw := CellString(number);
      var digits := NationalDigits(raw);
      if |digits| < 10 then CleanResult(raw, "", Invalid)
      else
        var ddd := digits[..2];
        var part := digits[2..];
        if !((|part| == 9 && StartsWith(part, "9")) || |part| == 8) then CleanResult(raw, ddd, Invalid)
        else
          var subscriber := if |part| == 9 && StartsWith(part, "9") then part[1..] else part;
          if |subscriber| != 8 then CleanResult(raw, ddd, Invalid)
          else CleanResult("+55" + ddd + "9" + subscriber, ddd, Valid)
  }

  /**
   * Validity depends only on the national digits: ten of them, or eleven
   * whose third is the mobile `9`. A present value that fails echoes the
   * input; the DDD is reported whenever at least ten digits remain.
   */
  lemma CleanValidity(number: Cell)
    requires !Falsy(number)
    ensures var d := NationalDigits(CellString(number));
      var r := Clean(number);
      && (r.status == Valid <==> |d| == 10 || (|d| == 11 && d[2] == '9'))
      && (r.status == Invalid ==> r.cleanedPhone == CellString(number))
      && (|d| < 10 ==> r.ddd == "")
      && (|d| >= 10 ==> r.ddd == d[..2])
  {
  }

  /**
   * A valid result is `+55`, the DDD, a `9` and the last eight national
   * digits: fourteen characters, all digits after the plus sign.
   */
  lemma {:induction false} ValidShape(number: Cell)
    requires Clean(number).status == Valid
    ensures var r := Clean(number);
      var d := NationalDigits(CellString(number));
      && |r.cleanedPhone| == 14
      && StartsWith(r.cleanedPhone, "+55")
      && r.cleanedPhone[3..5] == r.ddd
      && r.cleanedPhone[5] == '9'
      && r.cleanedPhone[6..] == d[|d| - 8..]
      && AllDigits(r.cleanedPhone[1..])
  {
    var r := Clean(number);
    var d := NationalDigits(CellString(number));
    var sub := d[|d| - 8..];
    assert r.cleanedPhone == "+55" + d[..2] + "9" + sub by {
      if |d| == 11 { assert d[2..][1..] == sub; }
      else { assert d[2..] == sub; }
    }
    assert r.cleanedPhone[1..] == "55" + d[..2] + "9" + sub;
  }

  /**
   * Cleaning a cleaned number again gives the same result exactly when its
   * DDD does not start with `0`; such a `0` is taken for a trunk prefix on
   * the second pass.
   */
  lemma {:induction false} CleanIdempotent(number: Cell)
    requires Clean(number).status == Valid
    ensures Clean(Str(Clean(number).cleanedPhone)) == Clean(number) <==> Clean(number).ddd[0] != '0'
  {
    var r := Clean(number);
    ValidShape(number);
    var p := r.cleanedPhone;
    assert p == "+55" + r.ddd + "9" + p[6..];
    assert AllDigits(r.ddd) && AllDigits(p[6..]) by {
      assert p[1..][2..4] == r.ddd;
      assert p[1..][5..] == p[6..];
    }
    CleanOfCleaned(r.ddd, p[6..]);
  }

  /** What the cleaner makes of its own output `+55` + DDD + `9` + eight digits. */
  lemma CleanOfCleaned(ddd: string, sub: string)
    requires |ddd| == 2 && |sub| == 8 && AllDigits(ddd) && AllDigits(sub)
    ensures ddd[0] != '0' ==>
      Clean(Str("+55" + ddd + "9" + sub)) == CleanResult("+55" + ddd + "9" + sub, ddd, Valid)
    ensures ddd[0] == '0' ==>
      Clean(Str("+55" + ddd + "9" + sub)) == CleanResult("+55" + [ddd[1], '9'] + "9" + sub, [ddd[1], '9'], Valid)
  {
    NationalOfCleaned(ddd, sub);
    var p := "+55" + ddd + "9" + sub;
    var n := ddd + "9" + sub;
    if ddd[0] != '0' {
      assert n[..2] == ddd && n[2..] == "9" + sub && n[2..][1..] == sub;
      CleanOfNational(Str(p));
    } else {
      assert n[1..] == [ddd[1], '9'] + sub;
      assert n[1..][..2] == [ddd[1], '9'] && n[1..][2..] == sub;
      CleanOfNational(Str(p));
    }
  }

  /** A valid result in terms of the national digits: ten, or eleven with a mobile `9` dropped and re-added. */
  lemma CleanOfNational(number: Cell)
    requires !Falsy(number)
    ensures var d := NationalDigits(CellString(number));
      && (|d| == 10 ==> Clean(number) == CleanResult("+55" + d[..2] + "9" + d[2..], d[..2], Valid))
      && (|d| == 11 && d[2] == '9' ==> Clean(number) == CleanResult("+55" + d[..2] + "9" + d[3..], d[..2], Valid))
  {
    var d := NationalDigits(CellString(number));
    if |d| == 11 {
      assert d[2..][1..] == d[3..];
    }
  }

  lemma NationalOfCleaned(ddd: string, sub: string)
    requires |ddd| == 2 && |sub| == 8 && AllDigits(ddd) && AllDigits(sub)
    ensures var n := ddd + "9" + sub;
      NationalDigits("+55" + ddd + "9" + sub) == if ddd[0] != '0' then n else n[1..]
  {
    var n := ddd + "9" + sub;
    DigitsOfCleaned(ddd, sub);
    var digits := "55" + n;
    assert digits[..2] == "55" && digits[2..] == n;
    assert n[..1] == [ddd[0]];
  }

  /** The digits of `+55` + DDD + `9` + subscriber are everything after the plus sign. */
  lemma DigitsOfCleaned(ddd: string, sub: string)
    requires AllDigits(ddd) && AllDigits(sub)
    ensures DigitsOf("+55" + ddd + "9" + sub) == "55" + (ddd + "9" + sub)
  {
    var n := ddd + "9" + sub;
    DigitsOfIdentity(ddd);
    DigitsOfIdentity(sub);
    DigitsOfIdentity("9");
    DigitsOfAppend(ddd, "9");
    DigitsOfAppend(ddd + "9", sub);
    assert DigitsOf(n) == n;
    DigitsOfIdentity("55");
    DigitsOfAppend("+", "55");
    assert DigitsOf("+") == [];
    assert DigitsOf("+55") == "55";
    assert "+55" + ddd + "9" + sub == "+55" + n;
    DigitsOfAppend("+55", n);
  }
}

/** Concrete runs of the cleaner. */
module CleanerExamples {
  import opened Text
  import opened Cleaner

  /** A valid result whose DDD starts with `0` exists, so the exception in `CleanIdempotent` is reachable. */
  lemma ZeroDddAccepted(input: string)
    requires input == "5500198765432"
    ensures Clean(Str(input)).status == Valid && Clean(Str(input)).ddd == "01"
  {
    DigitsOfIdentity(input);
    assert input[..2] == "55";
    assert input[2..] == "00198765432";
    assert input[2..][..1] == "0";
    assert input[2..][1..] == "0198765432";
    var d := NationalDigits(input);
    assert d == "0198765432";
    assert d[..2] == "01";
    CleanOfNational(Str(input));
  }
}
