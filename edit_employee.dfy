/** The employee edit/view form: the departments list, a loaded employee read
    into the form, and the update a valid edit sends. The form has no add
    path. */
module EditEmployee {
  import opened Common
  import opened FormErrors
  import opened UserForms
  import EmployeeSchemas

  function AsEditData(f: PersonForm): EmployeeSchemas.EditEmployeeData {
    EmployeeSchemas.EditEmployeeData(f.name, f.email, f.position, f.departmentId, f.gender)
  }

  datatype EmployeePayload = EmployeePayload(
    id: string, userId: string, departmentId: int, position: string,
    userName: string, userEmail: string, userGender: string)

  function Payload(empId: string, userId: string, f: PersonForm): (p: EmployeePayload)
    ensures p.id == empId && p.userId == userId
    ensures p.userName == f.name && p.userEmail == f.email && p.userGender == f.gender
    ensures p.position == f.position && p.departmentId == f.departmentId
  {
    EmployeePayload(empId, userId, f.departmentId, f.position, f.name, f.email, f.gender)
  }

  lemma PayloadRoundTrip(empId: string, userId: string, f: PersonForm)
    ensures var p := Payload(empId, userId, f);
      PersonForm(p.userName, p.userEmail, p.userGender, p.position, p.departmentId) == f
  {
  }

  datatype SubmitCall = NoCall | UpdateEmployee(id: string, payload: EmployeePayload)

  /** What the update call does: answers with `success` set or not, or throws. */
  datatype UpdateOutcome = Answered(success: bool) | Threw

  class EmployeeFormState {
    const mode: FormMode
    const empId: string
    var formData: PersonForm
    var userId: string
    var departments: seq<Department>
    var loading: bool
    var error: Option<string>
    var toasts: seq<string>
    var navigatedTo: Option<string>

    constructor (mode: FormMode, empId: string)
      ensures this.mode == mode && this.empId == empId
      ensures formData == InitialPerson && userId == "" && departments == [] && loading
      ensures error.None? && toasts == [] && navigatedTo.None?
    {
      this.mode := mode;
      this.empId := empId;
      formData := InitialPerson;
      userId := "";
      departments := [];
      loading := true;
      error := None;
      toasts := [];
      navigatedTo := None;
    }

    /** The departments fetch on mount; it alone clears `loading`. */
    method LoadDepartments(result: Fetch<Option<seq<Department>>>)
      modifies this
      ensures !loading
      ensures result.Fetched? ==> departments == Coalesce(result.data, []) && error == old(error)
      ensures result.FetchFailed? ==> departments == old(departments) && error == Some("Failed to load departments")
      ensures formData == old(formData) && userId == old(userId) && toasts == old(toasts) && navigatedTo == old(navigatedTo)
    {
      loading := true;
      match result {
        case Fetched(data) =>
          departments := Coalesce(data, []);
        case FetchFailed =>
          error := Some("Failed to load departments");
      }
      loading := false;
    }

    /** The employee fetch, for editing or viewing an employee with an id;
        this fetch can throw, and it leaves `loading` alone. */
    method LoadEmployee(result: Fetch<Option<LoadedPerson>>) returns (fetched: bool)
      modifies this
      ensures fetched <==> (mode == EditMode || mode == ViewMode) && empId != ""
      ensures fetched && result.Fetched? && result.data.Some? ==>
        formData == FromLoadedPerson(result.data.value) && userId == Coalesce(result.data.value.userId, "")
      ensures !(fetched && result.Fetched? && result.data.Some?) ==> formData == old(formData) && userId == old(userId)
      ensures fetched && result.FetchFailed? ==> toasts == old(toasts) + ["Failed to load employee details"]
      ensures !(fetched && result.FetchFailed?) ==> toasts == old(toasts)
      ensures departments == old(departments) && loading == old(loading) && error == old(error) && navigatedTo == old(navigatedTo)
    {
      fetched := (mode == EditMode || mode == ViewMode) && empId != "";
      if fetched {
        match result {
          case Fetched(data) =>
            if data.Some? {
              formData := FromLoadedPerson(data.value);
              userId := Coalesce(data.value.userId, "");
            }
          case FetchFailed =>
            toasts := toasts + ["Failed to load employee details"];
        }
      }
    }

    method HandleChange(c: PersonChange)
      modifies this
      ensures formData == (if mode == ViewMode then old(formData) else ApplyPersonChange(old(formData), c))
      ensures userId == old(userId) && departments == old(departments) && loading == old(loading)
      ensures error == old(error) && toasts == old(toasts) && navigatedTo == old(navigatedTo)
    {
      if mode == ViewMode {
        return;
      }
      formData := ApplyPersonChange(formData, c);
    }

    /** Submitting. `issues` holds the edit schema's messages, empty exactly
        when the schema accepts the form. Only an edit of an employee with an
        id sends anything; a thrown update is caught and not reported. */
    method Submit(isEmail: string -> bool, issues: seq<string>, outcome: UpdateOutcome) returns (call: SubmitCall)
      requires issues == [] <==> EmployeeSchemas.EditEmployeeValid(AsEditData(formData), isEmail)
      modifies this
      ensures formData == old(formData) && userId == old(userId) && departments == old(departments)
      ensures loading == old(loading) && error == old(error)
      ensures call.UpdateEmployee? ==> (EmployeeSchemas.EditEmployeeValid(AsEditData(formData), isEmail)
        && 1 <= call.payload.departmentId <= 100)
      ensures mode == ViewMode ==> call == NoCall && toasts == old(toasts) && navigatedTo == old(navigatedTo)
      ensures mode != ViewMode && issues != [] ==> (call == NoCall && navigatedTo == old(navigatedTo)
        && toasts == old(toasts) + [JoinMessages(issues)])
      ensures mode == EditMode && issues == [] && empId != "" ==> (call == UpdateEmployee(empId, Payload(empId, userId, formData))
        && (outcome == Answered(true) ==> (toasts == old(toasts) + ["Employee updated successfully!"]
              && navigatedTo == Some("/users/employees")))
        && (outcome != Answered(true) ==> toasts == old(toasts) && navigatedTo == old(navigatedTo)))
      ensures mode == AddMode && issues == [] ==> call == NoCall && toasts == old(toasts) && navigatedTo == old(navigatedTo)
      ensures mode == EditMode && empId == "" ==> call == NoCall
      ensures mode == EditMode && issues == [] && empId == "" ==> toasts == old(toasts) && navigatedTo == old(navigatedTo)
    {
      call := NoCall;
      if mode == ViewMode {
        return;
      }
      if issues != [] {
        toasts := toasts + [JoinMessages(issues)];
      } else if mode == EditMode && empId != "" {
        call := UpdateEmployee(empId, Payload(empId, userId, formData));
        if outcome == Answered(true) {
          toasts := toasts + ["Employee updated successfully!"];
          navigatedTo := Some("/users/employees");
        }
      }
    }
  }
}
