/** The sign-in and password-recovery schemas. E-mail syntax is the schema
    library's own check and enters every predicate as the parameter `isEmail`. */
module AuthSchemas {
  import opened ZodRules

  datatype LoginData = LoginData(email: string, password: string)
  datatype ForgotPasswordData = ForgotPasswordData(email: string)
  datatype ResetPasswordData = ResetPasswordData(email: string, newPassword: string)
  datatype ResetWithOtpData = ResetWithOtpData(otp: string, newPassword: string)

  /** `min(1, "Email is required").email(...)`. */
  predicate EmailOk(e: string, isEmail: string -> bool) {
    |e| >= 1 && isEmail(e)
  }

  predicate LoginValid(d: LoginData, isEmail: string -> bool) {
    EmailOk(d.email, isEmail) && PasswordOk(d.password)
  }

  predicate ForgotPasswordValid(d: ForgotPasswordData, isEmail: string -> bool) {
    EmailOk(d.email, isEmail)
  }

  predicate ResetPasswordValid(d: ResetPasswordData, isEmail: string -> bool) {
    EmailOk(d.email, isEmail) && PasswordOk(d.newPassword)
  }

  /** The OTP is any string at all. */
  predicate ResetWithOtpValid(d: ResetWithOtpData) {
    PasswordOk(d.newPassword)
  }

  /** Sign-in needs a non-empty valid e-mail and a password of at least 6 characters. */
  lemma LoginValidIff(d: LoginData, isEmail: string -> bool)
    ensures LoginValid(d, isEmail) <==> d.email != "" && isEmail(d.email) && |d.password| >= 6
  {
  }

  /** Password recovery looks at the e-mail and nothing else. */
  lemma ForgotPasswordOnlyEmail(d: ForgotPasswordData, isEmail: string -> bool)
    ensures ForgotPasswordValid(d, isEmail) <==> d.email != "" && isEmail(d.email)
  {
  }

  lemma ResetPasswordValidIff(d: ResetPasswordData, isEmail: string -> bool)
    ensures ResetPasswordValid(d, isEmail) <==> d.email != "" && isEmail(d.email) && |d.newPassword| >= 6
  {
  }

  /** Whatever the OTP, even "", only the new password decides. */
  lemma ResetWithOtpAnyOtp(otp: string, newPassword: string)
    ensures ResetWithOtpValid(ResetWithOtpData(otp, newPassword)) <==> |newPassword| >= 6
    ensures ResetWithOtpValid(ResetWithOtpData(otp, newPassword)) == ResetWithOtpValid(ResetWithOtpData("", newPassword))
  {
  }
}
