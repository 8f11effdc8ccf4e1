/** The profile edit schema. Optional fields are `Option`s; JavaScript
    `undefined` is `None`. */
module ProfileSchema {
  import opened Common
  import opened ZodRules

  datatype ProfileData = ProfileData(
    name: string, gender: string, email: string,
    phone: Option<string>, address: Option<string>, imageUrl: Option<string>)

  /** `/^[a-zA-Z\s]+$/`. */
  predicate IsNameChar(c: char) {
    IsAsciiLetter(c) || IsJsWhitespace(c)
  }

  predicate NameOk(n: string) {
    LengthBetween(n, 2, 50) && |n| >= 1 && AllChars(n, IsNameChar)
  }

  /** `[0-9]{10,15}`. */
  predicate DigitRun(s: string) {
    LengthBetween(s, 10, 15) && AllChars(s, IsAsciiDigit)
  }

  /** `/^\+?[0-9]{10,15}$/`. */
  predicate PhonePattern(p: string) {
    DigitRun(p) || (|p| > 0 && p[0] == '+' && DigitRun(p[1..]))
  }

  /** `!val || pattern.test(val)`: undefined and "" pass. */
  predicate PhoneOk(p: Option<string>) {
    p.None? || p.value == "" || PhonePattern(p.value)
  }

  predicate AddressOk(a: Option<string>) {
    a.None? || |a.value| <= 200
  }

  /** `.url(...).refine(v => !v || v.startsWith("https://")).optional()`. */
  predicate ImageUrlOk(u: Option<string>, isUrl: string -> bool) {
    u.None? || (isUrl(u.value) && (u.value == "" || StartsWith(u.value, "https://")))
  }

  predicate ProfileValid(d: ProfileData, isEmail: string -> bool, isUrl: string -> bool) {
    NameOk(d.name) && IsGender(d.gender) && isEmail(d.email)
    && PhoneOk(d.phone) && AddressOk(d.address) && ImageUrlOk(d.imageUrl, isUrl)
  }

  /** A present, non-empty phone is an optional '+' and then 10 to 15 ASCII digits. */
  lemma PhoneOkIff(p: string)
    requires p != ""
    ensures PhoneOk(Some(p)) <==>
      (10 <= |p| <= 15 && forall i :: 0 <= i < |p| ==> IsAsciiDigit(p[i]))
      || (p[0] == '+' && 11 <= |p| <= 16 && forall i :: 1 <= i < |p| ==> IsAsciiDigit(p[i]))
  {
    if p[0] == '+' && 11 <= |p| <= 16 && forall i :: 1 <= i < |p| ==> IsAsciiDigit(p[i]) {
      assert forall i :: 0 <= i < |p[1..]| ==> p[1..][i] == p[i + 1];
    }
  }

  /** Country-code and plain forms pass; a '+' with nine digits does not. */
  lemma PhoneExamples()
    ensures PhoneOk(Some("+0123456789"))
    ensures PhoneOk(Some("0123456789"))
    ensures !PhoneOk(Some("+012345678"))
    ensures PhoneOk(None) && PhoneOk(Some(""))
  {
    assert "+0123456789"[1..] == "0123456789";
    assert "+012345678"[1..] == "012345678";
  }

  /** Letters and spaces only, so an apostrophe is refused, but a name made only
      of spaces passes. */
  lemma NameExamples()
    ensures NameOk("Ann Lee")
    ensures !NameOk("O'Neil")
    ensures NameOk("  ")
  {
    assert !IsNameChar("O'Neil"[1]);
  }

  /** A present image URL must satisfy the URL check and start with "https://". */
  lemma ImageUrlOkIff(u: string, isUrl: string -> bool)
    requires u != ""
    ensures ImageUrlOk(Some(u), isUrl) <==> isUrl(u) && |u| >= 8 && u[..8] == "https://"
  {
  }

  /** Leaving phone, address and image URL out is always accepted. */
  lemma OptionalFieldsMayBeAbsent(d: ProfileData, isEmail: string -> bool, isUrl: string -> bool)
    requires d.phone.None? && d.address.None? && d.imageUrl.None?
    ensures ProfileValid(d, isEmail, isUrl) <==> NameOk(d.name) && IsGender(d.gender) && isEmail(d.email)
  {
  }
}
