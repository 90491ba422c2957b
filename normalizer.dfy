/**
 * The Python phone normaliser of the Streamlit tool
 * (`clean_and_standardize_phone`) and the display formatter used in its
 * vCards (`format_phone_for_vcf`).
 *
 * The normaliser returns Python's pair `(phone, reason)`: one of the two is
 * `None`. The rules are tried in a fixed order and the first one that applies
 * decides; they are keyed on the number of digits left once every non-digit
 * is removed.
 */
module Normalizer {
  import opened Text
  import opened Wrappers

  const EmptyReason: string := "Número de entrada vazio ou nulo."
  const HyphenCountReason: string := "Formato do hífen inválido. Deve ter exatamente um hífen."

  function HyphenDigitsReason(found: nat): string {
    "A segunda parte do número (após o hífen) deve conter exatamente 4 dígitos. Encontrado: "
      + NatToString(found) + " dígitos."
  }

  function TooShortReason(n: nat): string {
    "Número muito curto (" + NatToString(n) + " dígitos)."
  }

  function TooLongReason(n: nat): string {
    "Número muito longo sem Código de País (" + NatToString(n) + " dígitos)."
  }

  function NotStandardizableReason(n: nat): string {
    "Tamanho inválido ou não padronizável (" + NatToString(n) + " dígitos)."
  }

  /** The `(phone, reason)` pair returned by the normaliser. */
  datatype PhoneOutcome = PhoneOutcome(phone: Option<string>, reason: Option<string>)

  function Accept(phone: string): PhoneOutcome { PhoneOutcome(Some(phone), None) }

  function Reject(reason: string): PhoneOutcome { PhoneOutcome(None, Some(reason)) }

  /** CC: the first two characters of the configuration, or "55" when it is shorter. */
  function CountryCode(config: string): (cc: string)
    ensures |cc| == 2
    ensures |config| >= 2 ==> StartsWith(config, cc)
    ensures |config| < 2 ==> cc == "55"
  {
    if |config| >= 2 then config[..2] else "55"
  }

  /** DD: characters 2 and 3 of the configuration, or "31" when it has fewer than four. */
  function AreaCode(config: string): (dd: string)
    ensures |dd| == 2
    ensures |config| >= 4 ==> dd == config[2..4]
    ensures |config| < 4 ==> dd == "31"
  {
    if |config| >= 4 then config[2..4] else "31"
  }

  /**
   * The hyphen pre-check, applied to the raw text before digits are
   * extracted: `None` when the text passes, otherwise the rejection reason.
   */
  function HyphenCheck(raw: string): Option<string> {
    if '-' !in raw then None
    else
      var parts := Split(raw, "-");
      if |parts| != 2 then Some(HyphenCountReason)
      else
        var found := |DigitsOf(parts[1])|;
        if found != 4 then Some(HyphenDigitsReason(found)) else None
  }

  /**
   * `clean_and_standardize_phone(number, default_country_code)`.
   * Every accepted number starts with CC and has 13 characters, except that
   * an 8-digit local number comes out with 12.
   */
  function CleanAndStandardizePhone(number: string, config: string): (r: PhoneOutcome)
    ensures r.phone.Some? != r.reason.Some?
    ensures r.reason.Some? ==> r.reason.value != []
    ensures number == [] ==> r == Reject(EmptyReason)
    ensures r.phone.Some? ==> StartsWith(r.phone.value, CountryCode(config))
    ensures r.phone.Some? ==>
      |r.phone.value| == (if |DigitsOf(number)| == 8 then 12 else 13)
  {
    if number == [] then Reject(EmptyReason)
    else
      var cc := CountryCode(config);
      var dd := AreaCode(config);
      var hyphen := HyphenCheck(number);
      if hyphen.Some? then Reject(hyphen.value)
      else
        var d := DigitsOf(number);
        var n := |d|;
        var hasCc := StartsWith(d, cc);
        if n == 12 && hasCc then Accept(d[..4] + "9" + d[4..])
        else if n == 10 then Accept(cc + d[..2] + "9" + d[2..])
        else if n == 8 || n == 9 then Accept(cc + dd + d)
        // The source tests `startswith(DD)` here, but both of its branches prepend CC.
        else if n == 11 then Accept(cc + d)
        else if n == 13 && hasCc then Accept(d)
        else if n < 8 then Reject(TooShortReason(n))
        else if n > 13 && !hasCc then Reject(TooLongReason(n))
        else Reject(NotStandardizableReason(n))
  }

  /** A raw value with two or more hyphens is rejected, whatever digits it holds. */
  lemma MoreThanOneHyphenRejected(number: string, config: string)
    requires Count(number, '-') > 1
    ensures CleanAndStandardizePhone(number, config) == Reject(HyphenCountReason)
  {
    SplitCharCount(number, '-');
    assert '-' in number by {
      if '-' !in number { NoOccurrenceCountsZero(number, '-'); }
    }
  }

  lemma {:induction false} NoOccurrenceCountsZero(s: string, c: char)
    requires c !in s
    ensures Count(s, c) == 0
  {
    if s != [] { NoOccurrenceCountsZero(s[1..], c); }
  }

  /**
   * With exactly one hyphen, the text after it must hold exactly four digits,
   * whatever the total digit count; otherwise the reason gives the count found.
   */
  lemma SuffixDigitsChecked(number: string, config: string, before: string, after: string)
    requires number == before + "-" + after
    requires '-' !in before && '-' !in after
    ensures |DigitsOf(after)| != 4 ==>
      CleanAndStandardizePhone(number, config) == Reject(HyphenDigitsReason(|DigitsOf(after)|))
    ensures |DigitsOf(after)| == 4 ==> HyphenCheck(number).None?
  {
    SplitAtFirst(before, '-', after);
    SplitNoSep(after, '-');
    assert number[|before|] == '-';
  }

  /** The result of the rules that follow the pre-checks, for a raw value that passes them. */
  lemma Rules(number: string, config: string)
    requires number != [] && HyphenCheck(number).None?
    ensures var d, cc, dd := DigitsOf(number), CountryCode(config), AreaCode(config);
      var r := CleanAndStandardizePhone(number, config);
      // 12 digits with CC: the mobile '9' is inserted after the area code
      (|d| == 12 && StartsWith(d, cc) ==> r == Accept(d[..4] + "9" + d[4..])) &&
      // 12 digits without CC fall through to the catch-all
      (|d| == 12 && !StartsWith(d, cc) ==> r == Reject(NotStandardizableReason(12))) &&
      // 10 digits: CC, the area code, the inserted '9', the subscriber number
      (|d| == 10 ==> r == Accept(cc + d[..2] + "9" + d[2..])) &&
      // 8 or 9 digits: CC and DD prepended, digits untouched
      (|d| == 8 || |d| == 9 ==> r == Accept(cc + dd + d)) &&
      // 11 digits: CC prepended, whether or not the number starts with DD
      (|d| == 11 ==> r == Accept(cc + d)) &&
      // 13 digits: accepted unchanged only with CC
      (|d| == 13 ==> r == if StartsWith(d, cc) then Accept(d) else Reject(NotStandardizableReason(13))) &&
      (|d| < 8 ==> r == Reject(TooShortReason(|d|))) &&
      (|d| > 13 ==> r == if StartsWith(d, cc) then Reject(NotStandardizableReason(|d|)) else Reject(TooLongReason(|d|)))
  {
  }

  /**
   * The mobile '9' is at index 4 of a 10- or 12-digit
   * result, and deleting it gives back CC followed by the input digits
   * (respectively the input itself).
   */
  lemma NineInsertedAfterAreaCode(number: string, config: string)
    requires number != [] && HyphenCheck(number).None?
    requires |DigitsOf(number)| == 10 || (|DigitsOf(number)| == 12 && StartsWith(DigitsOf(number), CountryCode(config)))
    ensures var r := CleanAndStandardizePhone(number, config);
      var d := DigitsOf(number);
      r.phone.Some? && |r.phone.value| == 13 && r.phone.value[4] == '9' &&
      r.phone.value[..4] + r.phone.value[5..] == (if |d| == 10 then CountryCode(config) + d else d)
  {
    var d := DigitsOf(number);
    var cc := CountryCode(config);
    var p := CleanAndStandardizePhone(number, config).phone.value;
    if |d| == 12 {
      assert p == d[..4] + "9" + d[4..];
      assert p[..4] + p[5..] == d[..4] + d[4..];
      assert d[..4] + d[4..] == d;
    } else {
      assert p == cc + d[..2] + "9" + d[2..];
      assert p[..4] + p[5..] == cc + d[..2] + d[2..];
      assert d[..2] + d[2..] == d;
    }
  }

  /** With an all-digit configuration, every accepted number is a digit string. */
  lemma AcceptedIsDigits(number: string, config: string)
    requires AllDigits(config)
    ensures var r := CleanAndStandardizePhone(number, config);
      r.phone.Some? ==> AllDigits(r.phone.value)
  {
  }

  /**
   * `format_phone_for_vcf`: a 13-character number is laid out as
   * `+CC (DD) XXXXX-XXXX`; anything else is returned unchanged.
   */
  function FormatPhoneForVcf(e164: string): (r: string)
    ensures |e164| != 13 ==> r == e164
    ensures |e164| == 13 ==> |r| == 19 && r[0] == '+' && r[3..5] == " (" && r[7..9] == ") " && r[14] == '-'
  {
    if |e164| != 13 then e164
    else "+" + e164[0..2] + " (" + e164[2..4] + ") " + e164[4..9] + "-" + e164[9..13]
  }

  /** Dropping the punctuation of a formatted 13-digit number gives the digits back. */
  lemma FormatPhoneRoundTrip(e164: string)
    requires |e164| == 13 && AllDigits(e164)
    ensures DigitsOf(FormatPhoneForVcf(e164)) == e164
  {
    var a, b, c, d := e164[0..2], e164[2..4], e164[4..9], e164[9..13];
    DigitsOfIdentity(a);
    DigitsOfIdentity(b);
    DigitsOfIdentity(c);
    DigitsOfIdentity(d);
    FormattedDigits(a, b, c, d);
    assert a + b + c + d == e164;
  }

  lemma FormattedDigits(a: string, b: string, c: string, d: string)
    requires DigitsOf(a) == a && DigitsOf(b) == b && DigitsOf(c) == c && DigitsOf(d) == d
    ensures DigitsOf("+" + a + " (" + b + ") " + c + "-" + d) == a + b + c + d
  {
    var p1 := "+" + a;
    assert DigitsOf(p1) == a by { DigitsOfNone("+"); DigitsOfAppend("+", a); }
    var p2 := p1 + " (";
    assert DigitsOf(p2) == a by { DigitsOfNone(" ("); DigitsOfAppend(p1, " ("); }
    var p3 := p2 + b;
    assert DigitsOf(p3) == a + b by { DigitsOfAppend(p2, b); }
    var p4 := p3 + ") ";
    assert DigitsOf(p4) == a + b by { DigitsOfNone(") "); DigitsOfAppend(p3, ") "); }
    var p5 := p4 + c;
    assert DigitsOf(p5) == a + b + c by { DigitsOfAppend(p4, c); }
    var p6 := p5 + "-";
    assert DigitsOf(p6) == a + b + c by { DigitsOfNone("-"); DigitsOfAppend(p5, "-"); }
    assert DigitsOf(p6 + d) == a + b + c + d by { DigitsOfAppend(p6, d); }
  }
}

/** Worked examples for the configuration "5531". */
module NormalizerExamples {
  import opened Text
  import opened Wrappers
  import opened Normalizer

  /** An 11-digit number gets CC prepended. */
  lemma ElevenDigits(n: string)
    requires n == "31987654321"
    ensures CleanAndStandardizePhone(n, "5531") == Accept("55" + n)
  {
    assert AllDigits(n);
    DigitsOfIdentity(n);
    assert '-' !in n;
    assert CountryCode("5531") == "55";
    Rules(n, "5531");
  }

  /** An 8-digit number gets CC and DD prepended and stays 12 digits long. */
  lemma EightDigits(n: string)
    requires n == "87654321"
    ensures CleanAndStandardizePhone(n, "5531") == Accept("5531" + n)
    ensures |CleanAndStandardizePhone(n, "5531").phone.value| == 12
  {
    assert AllDigits(n);
    DigitsOfIdentity(n);
    assert '-' !in n;
    assert CountryCode("5531") == "55";
    assert AreaCode("5531") == "31";
    assert "55" + "31" == "5531";
    Rules(n, "5531");
  }

  /**
   * Four digits after the hyphen pass the pre-check; the remaining 11 digits
   * then get CC prepended, so the value is accepted.
   */
  lemma HyphenWithFourDigits(before: string, after: string)
    requires before == "5531876" && after == "5432"
    ensures CleanAndStandardizePhone(before + "-" + after, "5531") == Accept("55" + before + after)
  {
    var n := before + "-" + after;
    assert AllDigits(before) && AllDigits(after);
    DigitsOfIdentity(before);
    DigitsOfIdentity(after);
    SuffixDigitsChecked(n, "5531", before, after);
    assert DigitsOf(n) == before + after by {
      DigitsOfAppend(before + "-", after);
      DigitsOfAppend(before, "-");
      DigitsOfNone("-");
    }
    assert |before + after| == 11;
    assert CountryCode("5531") == "55";
    Rules(n, "5531");
    assert "55" + (before + after) == "55" + before + after;
  }

  /** Three digits after the hyphen fail the pre-check. */
  lemma HyphenWithThreeDigits(before: string, after: string)
    requires before == "553187" && after == "654"
    ensures CleanAndStandardizePhone(before + "-" + after, "5531") == Reject(HyphenDigitsReason(3))
  {
    assert AllDigits(after);
    DigitsOfIdentity(after);
    SuffixDigitsChecked(before + "-" + after, "5531", before, after);
  }
}
