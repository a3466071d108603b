/**
 * The two phone-number formatters used when the report e-mail is composed:
 * one for display ("+62 812...") and one for a WhatsApp link ("62812...").
 * Both first strip every character that is not an ASCII digit, as
 * `replace(/\D/g, '')` does.
 */
module PhoneFormat {

  predicate IsDigit(c: char)
  {
    '0' <= c <= '9'
  }

  predicate AllDigits(s: string)
  {
    forall i :: 0 <= i < |s| ==> IsDigit(s[i])
  }

  /** JavaScript `s.startsWith(p)`. */
  predicate StartsWith(s: string, p: string)
  {
    |p| <= |s| && s[..|p|] == p
  }

  /** JavaScript `s.slice(k)` for a non-negative k: empty once k passes the end. */
  function Slice(s: string, k: nat): (r: string)
    ensures k <= |s| ==> r == s[k..]
    ensures k > |s| ==> r == ""
  {
    if k <= |s| then s[k..] else ""
  }

  /**
   * `startsWith` and `slice` as the formatters use them together: a string
   * that starts with p is p followed by its slice past p, and slicing p off
   * p + s gives back s.
   */
  lemma PrefixSlice(p: string, s: string, t: string)
    ensures StartsWith(p + s, p) && Slice(p + s, |p|) == s
    ensures StartsWith(t, p) ==> t == p + Slice(t, |p|)
  {
  }

  /** The digits of s, in order: `s.replace(/\D/g, '')`. */
  function Clean(s: string): (r: string)
    ensures AllDigits(r)
    ensures |r| <= |s|
    ensures r == s <==> AllDigits(s)
  {
    if s == [] then []
    else if IsDigit(s[0]) then [s[0]] + Clean(s[1..])
    else Clean(s[1..])
  }

  /** Stripping distributes over concatenation: the digits of a + b are a's digits followed by b's. */
  lemma {:induction false} CleanAppend(a: string, b: string)
    ensures Clean(a + b) == Clean(a) + Clean(b)
  {
    if a == [] {
      assert a + b == b;
    } else {
      var head := if IsDigit(a[0]) then [a[0]] else [];
      assert (a + b)[0] == a[0];
      assert (a + b)[1..] == a[1..] + b;
      assert Clean(a + b) == head + Clean(a[1..] + b);
      assert Clean(a) == head + Clean(a[1..]);
      CleanAppend(a[1..], b);
    }
  }

  /** Display form: `formatPhoneReadable`. Falls back to the input as given. */
  function FormatPhoneReadable(phone: string): (r: string)
    ensures r == phone || (StartsWith(r, "+62 ") && AllDigits(r[4..]))
  {
    var clean := Clean(phone);
    if StartsWith(clean, "62") then "+62 " + Slice(clean, 2)
    else if StartsWith(clean, "0") then "+62 " + Slice(clean, 1)
    else phone
  }

  /** WhatsApp form, as written: `formatPhoneWA`. */
  function FormatPhoneWA(phone: string): (r: string)
    ensures AllDigits(r) && StartsWith(r, "62")
  {
    var clean := Clean(phone);
    if StartsWith(clean, "62") then clean else "62" + Slice(clean, 1)
  }

  /** The WhatsApp form is a fixed point of itself. */
  lemma WAIdempotent(phone: string)
    ensures FormatPhoneWA(FormatPhoneWA(phone)) == FormatPhoneWA(phone)
  {
  }

  /** A number whose digits do not start with 62 loses its first digit, whatever it is. */
  lemma WADropsFirstDigit(phone: string)
    requires !StartsWith(Clean(phone), "62")
    ensures |Clean(phone)| >= 1 ==> FormatPhoneWA(phone) == "62" + Clean(phone)[1..]
    ensures Clean(phone) == "" ==> FormatPhoneWA(phone) == "62"
  {
  }

  /**
   * Where the display form recognises the number, it shows the same national
   * number that the WhatsApp form puts after the country code.
   */
  lemma ReadableAgreesWithWA(phone: string)
    requires StartsWith(Clean(phone), "62") || StartsWith(Clean(phone), "0")
    ensures FormatPhoneReadable(phone) == "+62 " + FormatPhoneWA(phone)[2..]
  {
  }

  /**
   * Digits that already start with the country code: the display form shows
   * "+62 " and the digits after 62, and the WhatsApp form is the digits as they are.
   */
  lemma ReadableCountryCode(phone: string)
    requires StartsWith(Clean(phone), "62")
    ensures FormatPhoneReadable(phone) == "+62 " + Clean(phone)[2..]
    ensures FormatPhoneWA(phone) == Clean(phone)
  {
  }

  /** Digits with a trunk 0: the display form shows "+62 " and the digits after the 0. */
  lemma ReadableTrunk(phone: string)
    requires StartsWith(Clean(phone), "0")
    ensures FormatPhoneReadable(phone) == "+62 " + Clean(phone)[1..]
  {
    ReadableAgreesWithWA(phone);
    WADropsFirstDigit(phone);
  }

  /** The display form keeps the input as typed when it neither starts with 62 nor 0. */
  lemma ReadableFallback(phone: string)
    requires !StartsWith(Clean(phone), "62") && !StartsWith(Clean(phone), "0")
    ensures FormatPhoneReadable(phone) == phone
  {
  }

  /** A non-digit between two parts contributes nothing to the stripped string. */
  lemma SkipSeparator(a: string, c: char, b: string)
    requires !IsDigit(c)
    ensures Clean(a + [c] + b) == Clean(a) + Clean(b)
  {
    CleanAppend(a + [c], b);
    CleanAppend(a, [c]);
    assert Clean([c]) == [];
  }

  lemma CleanCountryCodeExample(phone: string)
    requires phone == "+62 812"
    ensures Clean(phone) == "62812"
  {
    var rest := "62" + [' '] + "812";
    SkipSeparator("62", ' ', "812");
    assert Clean(rest) == "62812";
    assert phone == ['+'] + rest;
    assert phone[1..] == rest;
  }


  lemma CleanParenthesisedExample(phone: string)
    requires phone == "(812) 34"
    ensures Clean(phone) == "81234"
  {
    var rest := "812" + [')'] + " 34";
    SkipSeparator("812", ')', " 34");
    assert Clean("812") == "812";
    assert Clean(" 34") == "34";
    assert Clean(rest) == "812" + "34";
    assert phone == ['('] + rest;
    assert phone[1..] == rest;
  }


  lemma CleanDashedExample(phone: string)
    requires phone == "08-12"
    ensures Clean(phone) == "0812"
  {
    var rest := "08" + ['-'] + "12";
    SkipSeparator("08", '-', "12");
    assert Clean(rest) == "0812";
    assert phone == rest;
  }

  lemma ReadableTrunkExample(phone: string)
    requires phone == "08-12"
    ensures FormatPhoneReadable(phone) == "+62 812"
  {
    CleanDashedExample(phone);
    assert !StartsWith(Clean(phone), "62") && StartsWith(Clean(phone), "0");
  }

  lemma ReadableCountryCodeExample(phone: string)
    requires phone == "+62 812"
    ensures FormatPhoneReadable(phone) == "+62 812"
  {
    CleanCountryCodeExample(phone);
    assert StartsWith(Clean(phone), "62");
  }

  lemma ReadableFallbackExample(phone: string)
    requires phone == "(812) 34"
    ensures FormatPhoneReadable(phone) == "(812) 34"
  {
    CleanParenthesisedExample(phone);
    assert Clean(phone)[0] == '8';
    assert !StartsWith(Clean(phone), "62") && !StartsWith(Clean(phone), "0");
  }

  lemma WATrunkExample(phone: string)
    requires phone == "0812"
    ensures FormatPhoneWA(phone) == "62812"
  {
  }

  lemma WACountryCodeExample(phone: string)
    requires phone == "+62 812"
    ensures FormatPhoneWA(phone) == "62812"
  {
    CleanCountryCodeExample(phone);
    assert StartsWith(Clean(phone), "62");
  }

  // ---------------------------------------------------------------------------
  // The WhatsApp form with an intended trunk-prefix rule: only a leading 0 is
  // replaced by 62; a number written without the 0 keeps all its digits.

  /** Counterexample: a mobile number typed without its leading 0 loses its first digit. */
  lemma WALosesDigitWithoutTrunkPrefix(phone: string)
    requires phone == "8123"
    ensures FormatPhoneWA(phone) == "62123"
    ensures FormatPhoneWAIntended(phone) == "628123"
  {
  }

  /** The national significant number: the digits after a leading 62, or after a leading 0. */
  function NationalNumber(phone: string): (r: string)
    ensures AllDigits(r)
  {
    var clean := Clean(phone);
    if StartsWith(clean, "62") then clean[2..]
    else if StartsWith(clean, "0") then clean[1..]
    else clean
  }

  function FormatPhoneWAIntended(phone: string): (r: string)
    ensures AllDigits(r) && StartsWith(r, "62")
    ensures r == "62" + NationalNumber(phone)
  {
    var clean := Clean(phone);
    if StartsWith(clean, "62") then clean
    else if StartsWith(clean, "0") then "62" + clean[1..]
    else "62" + clean
  }

  lemma WAIntendedKeepsEveryDigit(phone: string)
    requires !StartsWith(Clean(phone), "62") && !StartsWith(Clean(phone), "0")
    ensures FormatPhoneWAIntended(phone) == "62" + Clean(phone)
  {
  }

  lemma WAIntendedIdempotent(phone: string)
    ensures FormatPhoneWAIntended(FormatPhoneWAIntended(phone)) == FormatPhoneWAIntended(phone)
  {
  }

  /** The intended form and the written one differ only on numbers starting with neither 62 nor 0. */
  lemma WAIntendedAgreesOnRecognised(phone: string)
    requires StartsWith(Clean(phone), "62") || StartsWith(Clean(phone), "0")
    ensures FormatPhoneWAIntended(phone) == FormatPhoneWA(phone)
  {
  }
}
