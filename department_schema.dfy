/** The department schema; `totalemp` is a `z.number()` and modelled as `real`. */
module DepartmentSchema {

  datatype DepartmentData = DepartmentData(name: string, totalemp: real)

  predicate DepartmentValid(d: DepartmentData) {
    |d.name| >= 1 && d.totalemp >= 0.0
  }

  /** Zero employees is accepted, fractional and arbitrarily large counts too;
      negative ones are not. */
  lemma TotalEmployeesBounds(name: string, t: real)
    requires name != ""
    ensures DepartmentValid(DepartmentData(name, t)) <==> t >= 0.0
    ensures DepartmentValid(DepartmentData(name, 0.0)) && DepartmentValid(DepartmentData(name, 2.5))
    ensures !DepartmentValid(DepartmentData("", t))
  {
  }
}
