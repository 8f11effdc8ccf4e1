/** The supplier creation and edit schemas. */
module SupplierSchemas {
  import opened ZodRules

  datatype SupplierData = SupplierData(
    name: string, email: string, password: string, gender: string,
    foodType: string, address: string, phone: string)

  datatype EditSupplierData = EditSupplierData(
    name: string, email: string, foodType: string, phone: string,
    gender: string, address: string)

  /** The phone regex's character class `[0-9+\-\s()]`. */
  predicate IsPhoneChar(c: char) {
    IsAsciiDigit(c) || c == '+' || c == '-' || IsJsWhitespace(c) || c == '(' || c == ')'
  }

  /** Creation phone: 10..15 characters, each one from the class; the length
      counts every character, not just digits. */
  predicate CreatePhoneOk(p: string) {
    LengthBetween(p, 10, 15) && |p| >= 1 && AllChars(p, IsPhoneChar)
  }

  predicate SupplierValid(d: SupplierData, isEmail: string -> bool) {
    |d.name| >= 1 && isEmail(d.email) && |d.password| >= 6
    && IsGender(d.gender) && IsFoodType(d.foodType)
    && |d.address| >= 1 && CreatePhoneOk(d.phone)
  }

  predicate EditSupplierValid(d: EditSupplierData, isEmail: string -> bool) {
    LengthBetween(d.name, 2, 100)
    && |d.email| >= 1 && isEmail(d.email)
    && IsFoodType(d.foodType)
    && LengthBetween(d.phone, 10, 15) && |d.phone| >= 1
    && IsGender(d.gender)
    && LengthBetween(d.address, 5, 200) && |d.address| >= 1
  }

  /** What the creation schema demands, field by field. */
  lemma SupplierValidIff(d: SupplierData, isEmail: string -> bool)
    ensures SupplierValid(d, isEmail) <==>
      d.name != "" && d.address != "" && isEmail(d.email) && |d.password| >= 6
      && d.gender in ["male", "female", "other"]
      && d.foodType in ["breakfast", "lunch", "dinner", "snacks", "beverages"]
      && 10 <= |d.phone| <= 15
      && forall i :: 0 <= i < |d.phone| ==> IsPhoneChar(d.phone[i])
  {
  }

  /** Ten parentheses pass the creation phone check: no digit is needed. */
  lemma CreatePhoneNeedsNoDigit()
    ensures CreatePhoneOk("((((((((((")
    ensures forall i :: 0 <= i < 10 ==> !IsAsciiDigit("(((((((((("[i])
  {
  }

  /** The edit schema has no character-class check on the phone: any 10..15
      characters pass, letters included. */
  lemma EditPhoneAnyCharacters(d: EditSupplierData, isEmail: string -> bool)
    requires d.phone == "abcdefghij"
    ensures !CreatePhoneOk(d.phone)
    ensures EditSupplierValid(d, isEmail) <==>
      LengthBetween(d.name, 2, 100) && d.email != "" && isEmail(d.email)
      && IsFoodType(d.foodType) && IsGender(d.gender) && LengthBetween(d.address, 5, 200)
  {
    assert !IsPhoneChar(d.phone[0]);
  }

  /** The edit schema's bounds: name 2..100, phone 10..15, address 5..200,
      the `nonempty` checks being implied by the minimum lengths. */
  lemma EditSupplierValidIff(d: EditSupplierData, isEmail: string -> bool)
    ensures EditSupplierValid(d, isEmail) <==>
      2 <= |d.name| <= 100 && d.email != "" && isEmail(d.email)
      && IsFoodType(d.foodType) && 10 <= |d.phone| <= 15
      && IsGender(d.gender) && 5 <= |d.address| <= 200
  {
  }
}
