/** The manager add/edit/view form: the departments list, a loaded manager
    read into the form, and the update a valid edit sends. */
module ManagerForm {
  import opened Common
  import opened FormErrors
  import opened UserForms
  import ManagerSchemas

  function AsEditData(f: PersonForm): ManagerSchemas.EditManagerData {
    ManagerSchemas.EditManagerData(f.name, f.email, f.position, f.gender, f.departmentId)
  }

  /** The update body. The user's image URL is always sent as "". */
  datatype ManagerPayload = ManagerPayload(
    id: string, userId: string, position: string, departmentId: int,
    userName: string, userEmail: string, userGender: string, userImageUrl: string)

  function Payload(managerId: string, userId: string, f: PersonForm): (p: ManagerPayload)
    ensures p.id == managerId && p.userId == userId && p.userImageUrl == ""
    ensures p.userName == f.name && p.userEmail == f.email && p.userGender == f.gender
    ensures p.position == f.position && p.departmentId == f.departmentId
  {
    ManagerPayload(managerId, userId, f.position, f.departmentId, f.name, f.email, f.gender, "")
  }

  /** The form can be read back from the payload, and a manager's image is
      cleared by every edit whatever the form holds. */
  lemma PayloadRoundTrip(managerId: string, userId: string, f: PersonForm, g: PersonForm)
    ensures var p := Payload(managerId, userId, f);
      PersonForm(p.userName, p.userEmail, p.userGender, p.position, p.departmentId) == f
    ensures Payload(managerId, userId, f).userImageUrl == Payload(managerId, userId, g).userImageUrl
  {
  }

  datatype SubmitCall = NoCall | UpdateManager(id: string, payload: ManagerPayload) | AddCallback(data: PersonForm)

  class ManagerFormState {
    const mode: FormMode
    const managerId: string
    const hasOnSubmit: bool
    var formData: PersonForm
    var userId: string
    var departments: seq<Department>
    var loading: bool
    var error: Option<string>
    var toasts: seq<string>
    var navigatedTo: Option<string>

    constructor (mode: FormMode, managerId: string, hasOnSubmit: bool)
      ensures this.mode == mode && this.managerId == managerId && this.hasOnSubmit == hasOnSubmit
      ensures formData == InitialPerson && userId == "" && departments == [] && loading
      ensures error.None? && toasts == [] && navigatedTo.None?
    {
      this.mode := mode;
      this.managerId := managerId;
      this.hasOnSubmit := hasOnSubmit;
      formData := InitialPerson;
      userId := "";
      departments := [];
      loading := true;
      error := None;
      toasts := [];
      navigatedTo := None;
    }

    /** The departments fetch on mount; `undefined` reads as no departments. */
    method LoadDepartments(result: Fetch<Option<seq<Department>>>)
      modifies this
      ensures !loading
      ensures result.Fetched? ==> departments == Coalesce(result.data, []) && error == old(error)
      ensures result.FetchFailed? ==> departments == old(departments) && error == Some("Failed to load departments")
      ensures formData == old(formData) && userId == old(userId) && toasts == old(toasts) && navigatedTo == old(navigatedTo)
    {
      loading := true;
      match result {
        case Fetched(data) =>
          departments := Coalesce(data, []);
        case FetchFailed =>
          error := Some("Failed to load departments");
      }
      loading := false;
    }

    /** The manager fetch, for editing or viewing a manager with an id; the
        fetch wrapper answers `undefined` on failure. */
    method LoadManager(result: Option<LoadedPerson>) returns (fetched: bool)
      modifies this
      ensures fetched <==> (mode == EditMode || mode == ViewMode) && managerId != ""
      ensures !loading
      ensures fetched && result.Some? ==> formData == FromLoadedPerson(result.value) && userId == Coalesce(result.value.userId, "")
      ensures !fetched || result.None? ==> formData == old(formData) && userId == old(userId)
      ensures departments == old(departments) && error == old(error) && toasts == old(toasts) && navigatedTo == old(navigatedTo)
    {
      fetched := (mode == EditMode || mode == ViewMode) && managerId != "";
      if fetched && result.Some? {
        formData := FromLoadedPerson(result.value);
        userId := Coalesce(result.value.userId, "");
      }
      loading := false;
    }

    method HandleChange(c: PersonChange)
      modifies this
      ensures formData == (if mode == ViewMode then old(formData) else ApplyPersonChange(old(formData), c))
      ensures userId == old(userId) && departments == old(departments) && loading == old(loading)
      ensures error == old(error) && toasts == old(toasts) && navigatedTo == old(navigatedTo)
    {
      if mode == ViewMode {
        return;
      }
      formData := ApplyPersonChange(formData, c);
    }

    /** Submitting. `issues` holds the edit schema's messages, empty exactly
        when the schema accepts the form; `updated` is whether the update
        answers at all (its wrapper answers `undefined` on failure). A
        failing `onSubmit` is not reported: only schema failures are. */
    method Submit(isEmail: string -> bool, issues: seq<string>, updated: bool) returns (call: SubmitCall)
      requires issues == [] <==> ManagerSchemas.EditManagerValid(AsEditData(formData), isEmail)
      modifies this
      ensures formData == old(formData) && userId == old(userId) && departments == old(departments)
      ensures loading == old(loading) && error == old(error)
      ensures call.UpdateManager? ==> (ManagerSchemas.EditManagerValid(AsEditData(formData), isEmail)
        && call.payload.departmentId >= 1)
      ensures mode == ViewMode ==> call == NoCall && toasts == old(toasts) && navigatedTo == old(navigatedTo)
      ensures mode != ViewMode && issues != [] ==> (call == NoCall && navigatedTo == old(navigatedTo)
        && toasts == old(toasts) + [JoinMessages(issues)])
      ensures mode == EditMode && issues == [] && managerId != "" ==> (call == UpdateManager(managerId, Payload(managerId, userId, formData))
        && (updated ==> toasts == old(toasts) + ["Manager updated successfully!"] && navigatedTo == Some("/users/managers"))
        && (!updated ==> toasts == old(toasts) && navigatedTo == old(navigatedTo)))
      ensures mode == AddMode && issues == [] ==> (call == (if hasOnSubmit then AddCallback(formData) else NoCall)
        && toasts == old(toasts) && navigatedTo == old(navigatedTo))
      ensures mode == EditMode && managerId == "" ==> call == NoCall
      ensures mode == EditMode && issues == [] && managerId == "" ==> toasts == old(toasts) && navigatedTo == old(navigatedTo)
    {
      call := NoCall;
      if mode == ViewMode {
        return;
      }
      if issues != [] {
        toasts := toasts + [JoinMessages(issues)];
      } else if mode == EditMode && managerId != "" {
        call := UpdateManager(managerId, Payload(managerId, userId, formData));
        if updated {
          toasts := toasts + ["Manager updated successfully!"];
          navigatedTo := Some("/users/managers");
        }
      } else if mode == AddMode && hasOnSubmit {
        call := AddCallback(formData);
      }
    }
  }
}
