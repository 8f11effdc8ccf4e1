/** The employee creation and edit schemas. */
module EmployeeSchemas {
  import opened ZodRules

  datatype EmployeeData = EmployeeData(
    name: string, email: string, position: string, departmentId: int,
    gender: string, password: string)

  datatype EditEmployeeData = EditEmployeeData(
    name: string, email: string, position: string, departmentId: int, gender: string)

  predicate EditEmployeeValid(d: EditEmployeeData, isEmail: string -> bool) {
    LengthBetween(d.name, 2, 100)
    && |d.email| >= 1 && isEmail(d.email)
    && LengthBetween(d.position, 2, 100) && |d.position| >= 1
    && 1 <= d.departmentId <= 100
    && IsGender(d.gender)
  }

  /** The creation schema is the edit schema plus `password`. */
  predicate EmployeeValid(d: EmployeeData, isEmail: string -> bool) {
    EditEmployeeValid(EditEmployeeData(d.name, d.email, d.position, d.departmentId, d.gender), isEmail)
    && PasswordOk(d.password)
  }

  lemma EmployeeValidIff(d: EmployeeData, isEmail: string -> bool)
    ensures EmployeeValid(d, isEmail) <==>
      2 <= |d.name| <= 100 && d.email != "" && isEmail(d.email)
      && 2 <= |d.position| <= 100 && 1 <= d.departmentId <= 100
      && d.gender in ["male", "female", "other"] && |d.password| >= 6
  {
  }

  /** Department 0 (the forms' default) and department 101 are both rejected. */
  lemma DepartmentBounds(d: EditEmployeeData, isEmail: string -> bool)
    requires d.departmentId == 0 || d.departmentId == 101
    ensures !EditEmployeeValid(d, isEmail)
  {
  }

  /** The edit schema has no password: the creation check is the edit check
      plus the password rule. */
  lemma EditIsCreateWithoutPassword(d: EmployeeData, isEmail: string -> bool)
    ensures EmployeeValid(d, isEmail) <==>
      EditEmployeeValid(EditEmployeeData(d.name, d.email, d.position, d.departmentId, d.gender), isEmail)
      && |d.password| >= 6
  {
  }
}
