/** The manager creation and edit schemas. */
module ManagerSchemas {
  import opened ZodRules

  datatype ManagerData = ManagerData(
    name: string, email: string, position: string, gender: string,
    role: string, departmentId: int, password: string)

  datatype EditManagerData = EditManagerData(
    name: string, email: string, position: string, gender: string, departmentId: int)

  predicate EditManagerValid(d: EditManagerData, isEmail: string -> bool) {
    LengthBetween(d.name, 2, 100)
    && |d.email| >= 1 && isEmail(d.email)
    && LengthBetween(d.position, 2, 100) && |d.position| >= 1
    && IsGender(d.gender)
    && d.departmentId >= 1
  }

  /** The creation schema is the edit schema plus `role` and `password`. */
  predicate ManagerValid(d: ManagerData, isEmail: string -> bool) {
    EditManagerValid(EditManagerData(d.name, d.email, d.position, d.gender, d.departmentId), isEmail)
    && d.role == "management"
    && PasswordOk(d.password)
  }

  lemma ManagerValidIff(d: ManagerData, isEmail: string -> bool)
    ensures ManagerValid(d, isEmail) <==>
      2 <= |d.name| <= 100 && d.email != "" && isEmail(d.email)
      && 2 <= |d.position| <= 100 && IsGender(d.gender)
      && d.role == "management" && d.departmentId >= 1 && |d.password| >= 6
  {
  }

  /** The forms start with `departmentId: 0`, which neither schema accepts. */
  lemma DefaultDepartmentRejected(d: EditManagerData, isEmail: string -> bool)
    requires d.departmentId == 0
    ensures !EditManagerValid(d, isEmail)
  {
  }

  /** The edit schema checks no role and no password: two creation records that
      differ only there are the same edit record. */
  lemma EditIgnoresRoleAndPassword(d: ManagerData, isEmail: string -> bool)
    ensures EditManagerValid(EditManagerData(d.name, d.email, d.position, d.gender, d.departmentId), isEmail)
         <==> ManagerValid(d.(role := "management", password := "secret"), isEmail)
  {
  }
}
