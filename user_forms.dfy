/** What the supplier, manager and employee edit forms share: reading a
    loaded user's gender, the manager/employee form values, and the
    department choices. */
module UserForms {
  import opened Common
  import opened ZodRules

  /** `["male", "female", "other"].includes(gender) ? gender : "male"`. */
  function NormaliseGender(g: Option<string>): (r: string)
    ensures IsGender(r)
    ensures g.Some? && IsGender(g.value) ==> r == g.value
    ensures !(g.Some? && IsGender(g.value)) ==> r == "male"
  {
    if g.Some? && IsGender(g.value) then g.value else "male"
  }

  /** Normalising twice changes nothing, and a known gender is never lost. */
  lemma NormaliseGenderIdempotent(g: Option<string>)
    ensures NormaliseGender(Some(NormaliseGender(g))) == NormaliseGender(g)
    ensures NormaliseGender(g) != "male" ==> g == Some(NormaliseGender(g))
  {
  }

  /** The manager and employee form values. */
  datatype PersonForm = PersonForm(name: string, email: string, gender: string, position: string, departmentId: int)

  const InitialPerson: PersonForm := PersonForm("", "", "male", "", 0)

  /** A manager or employee record as the server returns it; its user part,
      and any field, may be missing. */
  datatype LoadedPerson = LoadedPerson(
    userName: Option<string>, userEmail: Option<string>, userGender: Option<string>,
    position: Option<string>, departmentId: Option<int>, userId: Option<string>)

  /** `x ?? ""` and `x ?? 0` for every field, the gender normalised. */
  function FromLoadedPerson(p: LoadedPerson): (r: PersonForm)
    ensures r.name == Coalesce(p.userName, "") && r.email == Coalesce(p.userEmail, "")
    ensures r.gender == NormaliseGender(p.userGender)
    ensures r.position == Coalesce(p.position, "") && r.departmentId == Coalesce(p.departmentId, 0)
  {
    PersonForm(Coalesce(p.userName, ""), Coalesce(p.userEmail, ""), NormaliseGender(p.userGender),
               Coalesce(p.position, ""), Coalesce(p.departmentId, 0))
  }

  /** A record without a department loads with 0, the same value as a blank
      form, which neither edit schema accepts. */
  lemma MissingDepartmentLoadsAsBlank(p: LoadedPerson)
    requires p.departmentId.None?
    ensures FromLoadedPerson(p).departmentId == InitialPerson.departmentId
  {
  }

  /** The inputs of the two forms. The department select offers each
      department's id as its value and `parseInt` reads it back, so a choice
      is the id itself. */
  datatype PersonChange =
    | NameChange(text: string)
    | EmailChange(text: string)
    | PositionChange(text: string)
    | GenderChange(text: string)
    | DepartmentChange(id: int)

  function ApplyPersonChange(f: PersonForm, c: PersonChange): (r: PersonForm)
    ensures c.NameChange? ==> r == f.(name := c.text)
    ensures c.EmailChange? ==> r == f.(email := c.text)
    ensures c.PositionChange? ==> r == f.(position := c.text)
    ensures c.GenderChange? ==> r == f.(gender := c.text)
    ensures c.DepartmentChange? ==> r == f.(departmentId := c.id)
  {
    match c
    case NameChange(t) => f.(name := t)
    case EmailChange(t) => f.(email := t)
    case PositionChange(t) => f.(position := t)
    case GenderChange(t) => f.(gender := t)
    case DepartmentChange(id) => f.(departmentId := id)
  }

  /** Whether two changes edit the same field. */
  predicate SameField(a: PersonChange, b: PersonChange) {
    (a.NameChange? && b.NameChange?) || (a.EmailChange? && b.EmailChange?)
    || (a.PositionChange? && b.PositionChange?) || (a.GenderChange? && b.GenderChange?)
    || (a.DepartmentChange? && b.DepartmentChange?)
  }

  /** Two changes to different fields commute; of two changes to the same
      field the later one wins. */
  lemma PersonChangesCommute(f: PersonForm, a: PersonChange, b: PersonChange)
    ensures !SameField(a, b) ==> ApplyPersonChange(ApplyPersonChange(f, a), b) == ApplyPersonChange(ApplyPersonChange(f, b), a)
    ensures SameField(a, b) ==> ApplyPersonChange(ApplyPersonChange(f, a), b) == ApplyPersonChange(f, b)
  {
  }

  datatype Department = Department(id: int, name: string)

  /** `{value: department.id.toString(), label: department.name}`, the value
      kept as the id it stands for and the label as `name`. */
  datatype DepartmentOption = DepartmentOption(id: int, name: string)

  function DepartmentOptions(ds: seq<Department>): (r: seq<DepartmentOption>)
    ensures |r| == |ds|
    ensures forall i :: 0 <= i < |ds| ==> r[i] == DepartmentOption(ds[i].id, ds[i].name)
  {
    if ds == [] then [] else [DepartmentOption(ds[0].id, ds[0].name)] + DepartmentOptions(ds[1..])
  }
}
