/** The supplier edit form: a loaded supplier read into the form, the
    read-only view, and the update a valid edit sends. */
module EditSupplier {
  import opened Common
  import opened ZodRules
  import opened FormErrors
  import opened UserForms
  import SupplierSchemas

  datatype SupplierForm = SupplierForm(
    name: string, email: string, gender: string, phone: string, address: string, foodType: string)

  const InitialSupplierForm: SupplierForm := SupplierForm("", "", "male", "", "", "lunch")

  /** The form's values as the edit schema reads them. */
  function AsEditData(f: SupplierForm): SupplierSchemas.EditSupplierData {
    SupplierSchemas.EditSupplierData(f.name, f.email, f.foodType, f.phone, f.gender, f.address)
  }

  /** A supplier as the server returns it. The food type has no default: a
      missing one makes `toLowerCase` throw. */
  datatype LoadedSupplier = LoadedSupplier(
    userName: Option<string>, userEmail: Option<string>, userGender: Option<string>,
    phone: Option<string>, address: Option<string>, foodType: Option<string>, userId: Option<string>)

  /** `String.prototype.toLowerCase` on ASCII letters; other characters are
      kept. */
  function AsciiLower(s: string): (r: string)
    ensures |r| == |s|
    ensures forall i :: 0 <= i < |s| ==> (r[i] == if 'A' <= s[i] <= 'Z' then (s[i] as int + 32) as char else s[i])
  {
    if s == [] then []
    else [if 'A' <= s[0] <= 'Z' then (s[0] as int + 32) as char else s[0]] + AsciiLower(s[1..])
  }

  /** Lower-casing is idempotent, and a food type stored in any ASCII case
      becomes one the schema accepts. */
  lemma AsciiLowerIdempotent(s: string)
    ensures AsciiLower(AsciiLower(s)) == AsciiLower(s)
  {
  }

  lemma CapitalisedFoodTypeAccepted()
    ensures IsFoodType(AsciiLower("Lunch")) && IsFoodType(AsciiLower("DINNER"))
  {
    LowerLunch();
    LowerDinner();
  }

  lemma LowerLunch()
    ensures AsciiLower("Lunch") == "lunch"
  {
    var r := AsciiLower("Lunch");
    assert r[0] == 'l';
  }

  lemma LowerDinner()
    ensures AsciiLower("DINNER") == "dinner"
  {
    var r := AsciiLower("DINNER");
    assert r[0] == 'd' && r[1] == 'i' && r[2] == 'n';
    assert r[3] == 'n' && r[4] == 'e' && r[5] == 'r';
  }

  function FromLoaded(s: LoadedSupplier): (r: SupplierForm)
    requires s.foodType.Some?
    ensures r.name == Coalesce(s.userName, "") && r.email == Coalesce(s.userEmail, "")
    ensures r.gender == NormaliseGender(s.userGender) && IsGender(r.gender)
    ensures r.phone == Coalesce(s.phone, "") && r.address == Coalesce(s.address, "")
    ensures r.foodType == AsciiLower(s.foodType.value)
  {
    SupplierForm(Coalesce(s.userName, ""), Coalesce(s.userEmail, ""), NormaliseGender(s.userGender),
                 Coalesce(s.phone, ""), Coalesce(s.address, ""), AsciiLower(s.foodType.value))
  }

  /** The update body: the record's ids, the supplier fields, and the user's
      name, e-mail and gender. */
  datatype SupplierPayload = SupplierPayload(
    id: string, userId: string, foodType: string, phone: string, address: string,
    userName: string, userEmail: string, userGender: string)

  function Payload(supId: string, userId: string, f: SupplierForm): (p: SupplierPayload)
    ensures p.id == supId && p.userId == userId
    ensures p.userName == f.name && p.userEmail == f.email && p.userGender == f.gender
    ensures p.foodType == f.foodType && p.phone == f.phone && p.address == f.address
  {
    SupplierPayload(supId, userId, f.foodType, f.phone, f.address, f.name, f.email, f.gender)
  }

  /** The payload loses no field of the form: the form can be read back from it. */
  lemma PayloadRoundTrip(supId: string, userId: string, f: SupplierForm)
    ensures var p := Payload(supId, userId, f);
      SupplierForm(p.userName, p.userEmail, p.userGender, p.phone, p.address, p.foodType) == f
  {
  }

  datatype SubmitCall = NoCall | UpdateSupplier(id: string, payload: SupplierPayload) | AddCallback(data: SupplierForm)

  /** The field names of `handleChange`. */
  datatype SupplierField = Name | Email | Gender | Phone | Address | FoodType

  function SetField(f: SupplierForm, field: SupplierField, value: string): SupplierForm {
    match field
    case Name => f.(name := value)
    case Email => f.(email := value)
    case Gender => f.(gender := value)
    case Phone => f.(phone := value)
    case Address => f.(address := value)
    case FoodType => f.(foodType := value)
  }

  class EditSupplierForm {
    const mode: FormMode
    const supId: string
    const hasOnSubmit: bool
    var formData: SupplierForm
    var userId: string
    var loading: bool
    var toasts: seq<string>
    var navigatedTo: Option<string>

    constructor (mode: FormMode, supId: string, hasOnSubmit: bool)
      ensures this.mode == mode && this.supId == supId && this.hasOnSubmit == hasOnSubmit
      ensures formData == InitialSupplierForm && userId == "" && loading && toasts == [] && navigatedTo.None?
    {
      this.mode := mode;
      this.supId := supId;
      this.hasOnSubmit := hasOnSubmit;
      formData := InitialSupplierForm;
      userId := "";
      loading := true;
      toasts := [];
      navigatedTo := None;
    }

    /** The load on mount. The fetch wrapper answers `undefined` on failure;
        a loaded supplier without a food type fails inside the form. */
    method Load(result: Option<LoadedSupplier>) returns (fetched: bool)
      modifies this
      ensures fetched <==> (mode == EditMode || mode == ViewMode) && supId != ""
      ensures !loading && navigatedTo == old(navigatedTo)
      ensures fetched && result.Some? && result.value.foodType.Some? ==>
        formData == FromLoaded(result.value) && userId == Coalesce(result.value.userId, "") && toasts == old(toasts)
      ensures fetched && result.Some? && result.value.foodType.None? ==> (formData == old(formData)
        && userId == old(userId) && toasts == old(toasts) + ["Failed to load supplier details"])
      ensures !fetched || result.None? ==> formData == old(formData) && userId == old(userId) && toasts == old(toasts)
    {
      fetched := (mode == EditMode || mode == ViewMode) && supId != "";
      if fetched && result.Some? {
        if result.value.foodType.Some? {
          formData := FromLoaded(result.value);
          userId := Coalesce(result.value.userId, "");
        } else {
          toasts := toasts + ["Failed to load supplier details"];
        }
      }
      loading := false;
    }

    method HandleChange(field: SupplierField, value: string)
      modifies this
      ensures formData == (if mode == ViewMode then old(formData) else SetField(old(formData), field, value))
      ensures userId == old(userId) && loading == old(loading) && toasts == old(toasts) && navigatedTo == old(navigatedTo)
    {
      if mode == ViewMode {
        return;
      }
      formData := SetField(formData, field, value);
    }

    /** Submitting. `issues` holds the edit schema's messages, empty exactly
        when the schema accepts the form; `updated` is whether the update's
        answer reports success (the wrapper answers `undefined` on failure);
        `callbackFailed` is whether the caller's `onSubmit` throws. */
    method Submit(isEmail: string -> bool, issues: seq<string>, updated: bool, callbackFailed: bool)
      returns (call: SubmitCall)
      requires issues == [] <==> SupplierSchemas.EditSupplierValid(AsEditData(formData), isEmail)
      modifies this
      ensures formData == old(formData) && userId == old(userId) && loading == old(loading)
      ensures call.UpdateSupplier? ==> SupplierSchemas.EditSupplierValid(AsEditData(formData), isEmail)
      ensures mode == ViewMode ==> call == NoCall && toasts == old(toasts) && navigatedTo == old(navigatedTo)
      ensures mode != ViewMode && issues != [] ==> (call == NoCall && navigatedTo == old(navigatedTo)
        && toasts == old(toasts) + [JoinMessages(issues)])
      ensures mode == EditMode && issues == [] && supId != "" ==> (call == UpdateSupplier(supId, Payload(supId, userId, formData))
        && (updated ==> toasts == old(toasts) + ["Supplier updated successfully!"] && navigatedTo == Some("/suppliers"))
        && (!updated ==> toasts == old(toasts) && navigatedTo == old(navigatedTo)))
      ensures mode == AddMode && issues == [] ==> (call == (if hasOnSubmit then AddCallback(formData) else NoCall)
        && navigatedTo == old(navigatedTo)
        && toasts == old(toasts) + (if hasOnSubmit && callbackFailed then ["Failed to save supplier"] else []))
      ensures mode == EditMode && supId == "" ==> call == NoCall
      ensures mode == EditMode && issues == [] && supId == "" ==> toasts == old(toasts) && navigatedTo == old(navigatedTo)
    {
      call := NoCall;
      if mode == ViewMode {
        return;
      }
      if issues != [] {
        toasts := toasts + [JoinMessages(issues)];
      } else if mode == EditMode && supId != "" {
        call := UpdateSupplier(supId, Payload(supId, userId, formData));
        if updated {
          toasts := toasts + ["Supplier updated successfully!"];
          navigatedTo := Some("/suppliers");
        }
      } else if mode == AddMode && hasOnSubmit {
        call := AddCallback(formData);
        if callbackFailed {
          toasts := toasts + ["Failed to save supplier"];
        }
      }
    }
  }
}
