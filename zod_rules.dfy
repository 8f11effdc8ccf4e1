/** The primitive checks the schemas are built from: string length bounds
    (zod's `min`/`max`/`nonempty` count UTF-16 code units, here characters),
    enumerations, and the character classes used by the schemas' regular
    expressions. */
module ZodRules {

  /** `z.string().min(lo).max(hi)`. */
  predicate LengthBetween(s: string, lo: nat, hi: nat) {
    lo <= |s| <= hi
  }

  /** JavaScript's `\s`: the ECMAScript WhiteSpace and LineTerminator characters. */
  predicate IsJsWhitespace(c: char) {
    c == '\t' || c == '\n' || c == '\U{000B}' || c == '\U{000C}' || c == '\r' || c == ' '
    || c == '\U{00A0}' || c == '\U{1680}' || ('\U{2000}' <= c <= '\U{200A}')
    || c == '\U{2028}' || c == '\U{2029}' || c == '\U{202F}' || c == '\U{205F}'
    || c == '\U{3000}' || c == '\U{FEFF}'
  }

  /** `[0-9]`. */
  predicate IsAsciiDigit(c: char) {
    '0' <= c <= '9'
  }

  /** `[a-zA-Z]`. */
  predicate IsAsciiLetter(c: char) {
    ('a' <= c <= 'z') || ('A' <= c <= 'Z')
  }

  /** Every character of `s` satisfies `p`. */
  predicate AllChars(s: string, p: char -> bool) {
    forall i :: 0 <= i < |s| ==> p(s[i])
  }

  /** The genders every user schema accepts: `z.enum(["male", "female", "other"])`. */
  const Genders: seq<string> := ["male", "female", "other"]

  predicate IsGender(g: string) {
    g in Genders
  }

  /** The supplier meal types: `z.enum(["breakfast", "lunch", "dinner", "snacks", "beverages"])`. */
  const FoodTypes: seq<string> := ["breakfast", "lunch", "dinner", "snacks", "beverages"]

  predicate IsFoodType(f: string) {
    f in FoodTypes
  }

  /** `s.startsWith(prefix)`. */
  predicate StartsWith(s: string, prefix: string) {
    |prefix| <= |s| && s[..|prefix|] == prefix
  }

  /** The password rule `min(1, ...).min(6, ...)`: both checks hold exactly when
      the length is at least 6, so the first is subsumed by the second. */
  predicate PasswordOk(p: string) {
    |p| >= 1 && |p| >= 6
  }

  lemma PasswordMinSubsumed(p: string)
    ensures PasswordOk(p) <==> |p| >= 6
  {
  }
}
