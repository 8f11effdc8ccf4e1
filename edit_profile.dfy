/** The profile edit dialog: its initial form, per-field error clearing, the
    schema check's input, and the update that sends only changed fields. */
module EditProfile {
  import opened Common
  import opened FormErrors
  import opened ProfileSchema

  /** `profileData.roleDetails`. */
  datatype RoleDetails = RoleDetails(phone: Option<string>, address: Option<string>)

  /** The loaded profile; every property may be missing. */
  datatype LoadedProfile = LoadedProfile(
    id: Option<string>, name: Option<string>, gender: Option<string>, email: Option<string>,
    phone: Option<string>, phoneNumber: Option<string>, address: Option<string>,
    imageUrl: Option<string>, roleDetails: RoleDetails)

  datatype ProfileForm = ProfileForm(
    name: string, gender: string, email: string, phone: string, address: string, imageUrl: string)

  /** `updateData`: `id` always, each other field only when it was set. */
  datatype ProfileUpdate = ProfileUpdate(
    id: Option<string>, name: Option<string>, gender: Option<string>, email: Option<string>,
    phone: Option<string>, address: Option<string>, imageUrl: Option<string>)

  /** The text inputs, by their `name` attribute. */
  datatype TextField = NameField | EmailField | PhoneField | AddressField

  function FieldKey(f: TextField): string {
    match f
    case NameField => "name"
    case EmailField => "email"
    case PhoneField => "phone"
    case AddressField => "address"
  }

  /** The initial form: each present, non-empty value is taken, anything else
      becomes "" (gender "male"). Phone and address come from `roleDetails`,
      the phone falling back to the top-level `phoneNumber`. */
  function InitialForm(p: LoadedProfile): (f: ProfileForm)
    ensures f.name == OrElse(p.name, "") && f.email == OrElse(p.email, "") && f.imageUrl == OrElse(p.imageUrl, "")
    ensures f.gender == OrElse(p.gender, "male") && f.gender != ""
    ensures f.phone == OrElse(Or(p.roleDetails.phone, p.phoneNumber), "")
    ensures f.address == OrElse(p.roleDetails.address, "")
  {
    ProfileForm(
      OrElse(p.name, ""), OrElse(p.gender, "male"), OrElse(p.email, ""),
      OrElse(Or(p.roleDetails.phone, p.phoneNumber), ""),
      OrElse(p.roleDetails.address, ""), OrElse(p.imageUrl, ""))
  }

  /** What the schema checks: phone and address are left undefined unless the
      user is a supplier; the image URL is always passed, "" included. */
  function ValidationInput(f: ProfileForm, isSupplier: bool): (d: ProfileData)
    ensures d.name == f.name && d.gender == f.gender && d.email == f.email
    ensures d.imageUrl == Some(f.imageUrl)
    ensures isSupplier ==> d.phone == Some(f.phone) && d.address == Some(f.address)
    ensures !isSupplier ==> d.phone.None? && d.address.None?
  {
    ProfileData(f.name, f.gender, f.email,
      if isSupplier then Some(f.phone) else None,
      if isSupplier then Some(f.address) else None,
      Some(f.imageUrl))
  }

  /** For a non-supplier the phone and address typed in never matter. */
  lemma NonSupplierIgnoresPhoneAndAddress(f: ProfileForm, phone: string, address: string, isEmail: string -> bool, isUrl: string -> bool)
    ensures ProfileValid(ValidationInput(f, false), isEmail, isUrl)
        == ProfileValid(ValidationInput(f.(phone := phone, address := address), false), isEmail, isUrl)
  {
  }

  /** A form without an image passes its "" to the URL check; if that check
      refuses "" (as a URL parser does), the form cannot be saved until an
      image is uploaded. */
  lemma EmptyImageUrlBlocksSave(f: ProfileForm, isSupplier: bool, isEmail: string -> bool, isUrl: string -> bool)
    requires f.imageUrl == "" && !isUrl("")
    ensures !ProfileValid(ValidationInput(f, isSupplier), isEmail, isUrl)
  {
  }

  /** `a !== b`, where `b` may be undefined. */
  predicate DiffersFrom(a: string, b: Option<string>) {
    b.None? || b.value != a
  }

  /** The update as written: each field is compared with the loaded profile's
      TOP-LEVEL property of the same name (the phone with
      `profileData.phone || profileData.phoneNumber`). */
  function ChangedFields(f: ProfileForm, p: LoadedProfile, userId: Option<string>, isSupplier: bool): ProfileUpdate {
    ProfileUpdate(
      userId,
      if DiffersFrom(f.name, p.name) then Some(f.name) else None,
      if DiffersFrom(f.gender, p.gender) then Some(f.gender) else None,
      if DiffersFrom(f.email, p.email) then Some(f.email) else None,
      if isSupplier && DiffersFrom(f.phone, Or(p.phone, p.phoneNumber)) then Some(f.phone) else None,
      if isSupplier && DiffersFrom(f.address, p.address) then Some(f.address) else None,
      if DiffersFrom(f.imageUrl, p.imageUrl) then Some(f.imageUrl) else None)
  }

  /** `Object.keys(updateData).length === 1`: nothing but `id`. */
  predicate NoChanges(u: ProfileUpdate) {
    u.name.None? && u.gender.None? && u.email.None? && u.phone.None? && u.address.None? && u.imageUrl.None?
  }

  /** Each field is sent exactly when it differs from the loaded value, and only
      with the form's value; phone and address are never sent for a
      non-supplier; `id` is always the user id. */
  lemma ChangedFieldsExact(f: ProfileForm, p: LoadedProfile, userId: Option<string>, isSupplier: bool)
    ensures var u := ChangedFields(f, p, userId, isSupplier);
      u.id == userId
      && (u.name.Some? <==> DiffersFrom(f.name, p.name)) && (u.name.Some? ==> u.name.value == f.name)
      && (u.gender.Some? <==> DiffersFrom(f.gender, p.gender)) && (u.gender.Some? ==> u.gender.value == f.gender)
      && (u.email.Some? <==> DiffersFrom(f.email, p.email)) && (u.email.Some? ==> u.email.value == f.email)
      && (u.imageUrl.Some? <==> DiffersFrom(f.imageUrl, p.imageUrl)) && (u.imageUrl.Some? ==> u.imageUrl.value == f.imageUrl)
      && (!isSupplier ==> u.phone.None? && u.address.None?)
      && (isSupplier ==> (u.phone.Some? <==> DiffersFrom(f.phone, Or(p.phone, p.phoneNumber))))
      && (isSupplier ==> (u.address.Some? <==> DiffersFrom(f.address, p.address)))
  {
  }

  /** A form holding exactly the loaded top-level values yields no update. */
  lemma LoadedValuesMeanNoChanges(f: ProfileForm, p: LoadedProfile, userId: Option<string>, isSupplier: bool)
    requires p.name == Some(f.name) && p.gender == Some(f.gender) && p.email == Some(f.email)
    requires p.imageUrl == Some(f.imageUrl)
    requires isSupplier ==> Or(p.phone, p.phoneNumber) == Some(f.phone) && p.address == Some(f.address)
    ensures NoChanges(ChangedFields(f, p, userId, isSupplier))
  {
  }

  /** The form's initial values come from `roleDetails` and defaults but the
      diff compares with top-level properties, so a supplier who saves without
      editing anything still sends phone and address. */
  lemma UneditedSupplierFormIsSent()
    ensures var p := LoadedProfile(Some("u1"), Some("Ann"), Some("female"), Some("ann@example.com"),
                                   None, None, None, Some("https://img"),
                                   RoleDetails(Some("0123456789"), Some("Main Street")));
            var u := ChangedFields(InitialForm(p), p, p.id, true);
            !NoChanges(u) && u.phone == Some("0123456789") && u.address == Some("Main Street")
  {
  }

  /** A profile without a gender starts the form with "male", which differs
      from the missing value: every save sends the gender, edited or not. */
  lemma MissingGenderAlwaysSent(p: LoadedProfile, userId: Option<string>, isSupplier: bool)
    requires p.gender.None?
    ensures ChangedFields(InitialForm(p), p, userId, isSupplier).gender == Some("male")
    ensures !NoChanges(ChangedFields(InitialForm(p), p, userId, isSupplier))
  {
  }

  /** The evidently intended diff: compare each field with the value the form
      started from. */
  function ChangedFieldsIntended(f: ProfileForm, p: LoadedProfile, userId: Option<string>, isSupplier: bool): ProfileUpdate {
    var g := InitialForm(p);
    ProfileUpdate(
      userId,
      if f.name != g.name then Some(f.name) else None,
      if f.gender != g.gender then Some(f.gender) else None,
      if f.email != g.email then Some(f.email) else None,
      if isSupplier && f.phone != g.phone then Some(f.phone) else None,
      if isSupplier && f.address != g.address then Some(f.address) else None,
      if f.imageUrl != g.imageUrl then Some(f.imageUrl) else None)
  }

  /** With the intended diff, "nothing changed" holds exactly when every
      considered field still has its initial value, so an unedited form never
      reaches the update call. */
  lemma IntendedNoChangesIff(f: ProfileForm, p: LoadedProfile, userId: Option<string>, isSupplier: bool)
    ensures NoChanges(ChangedFieldsIntended(f, p, userId, isSupplier)) <==>
      var g := InitialForm(p);
      f.name == g.name && f.gender == g.gender && f.email == g.email && f.imageUrl == g.imageUrl
      && (isSupplier ==> f.phone == g.phone && f.address == g.address)
    ensures NoChanges(ChangedFieldsIntended(InitialForm(p), p, userId, isSupplier))
  {
  }

  /** How the update call ends. */
  datatype ApiOutcome = Updated | UpdateFailed

  class EditProfileForm {
    const profile: LoadedProfile
    const isSupplier: bool
    const userId: Option<string>
    var form: ProfileForm
    var errors: map<string, string>
    var isLoading: bool
    var uploading: bool
    var toasts: seq<string>
    /** Every update sent to the profile API. */
    var updates: seq<ProfileUpdate>
    var closed: bool
    var saved: bool

    constructor (profileData: LoadedProfile, isSupplier: bool)
      ensures profile == profileData && this.isSupplier == isSupplier
      ensures form == InitialForm(profileData)
      ensures userId == Or(profileData.id, None)
      ensures errors == map[] && !isLoading && !uploading && toasts == [] && updates == []
      ensures !closed && !saved
    {
      profile := profileData;
      this.isSupplier := isSupplier;
      userId := Or(profileData.id, None);
      form := InitialForm(profileData);
      errors := map[];
      isLoading := false;
      uploading := false;
      toasts := [];
      updates := [];
      closed := false;
      saved := false;
    }

    /** Typing in a text input: that field takes the value, and only that
        field's error goes, if it was truthy. */
    method InputChange(field: TextField, value: string)
      modifies this
      ensures form == match field
        case NameField => old(form).(name := value)
        case EmailField => old(form).(email := value)
        case PhoneField => old(form).(phone := value)
        case AddressField => old(form).(address := value)
      ensures errors == ClearError(old(errors), FieldKey(field))
      ensures toasts == old(toasts) && updates == old(updates) && isLoading == old(isLoading)
      ensures uploading == old(uploading) && closed == old(closed) && saved == old(saved)
    {
      match field {
        case NameField => form := form.(name := value);
        case EmailField => form := form.(email := value);
        case PhoneField => form := form.(phone := value);
        case AddressField => form := form.(address := value);
      }
      errors := ClearError(errors, FieldKey(field));
    }

    method GenderChange(value: string)
      modifies this
      ensures form == old(form).(gender := value)
      ensures errors == ClearError(old(errors), "gender")
      ensures toasts == old(toasts) && updates == old(updates) && isLoading == old(isLoading)
      ensures uploading == old(uploading) && closed == old(closed) && saved == old(saved)
    {
      form := form.(gender := value);
      errors := ClearError(errors, "gender");
    }

    method ImageUploadStart()
      modifies this
      ensures uploading && form == old(form)
      ensures errors == ClearError(old(errors), "imageUrl")
      ensures toasts == old(toasts) && updates == old(updates) && isLoading == old(isLoading)
      ensures closed == old(closed) && saved == old(saved)
    {
      uploading := true;
      errors := ClearError(errors, "imageUrl");
    }

    method ImageUploadSuccess(fileUrl: string)
      modifies this
      ensures !uploading && form == old(form).(imageUrl := fileUrl)
      ensures toasts == old(toasts) + ["Image uploaded successfully!"]
      ensures errors == old(errors) && updates == old(updates) && isLoading == old(isLoading)
      ensures closed == old(closed) && saved == old(saved)
    {
      form := form.(imageUrl := fileUrl);
      uploading := false;
      toasts := toasts + ["Image uploaded successfully!"];
    }

    method ImageUploadError()
      modifies this
      ensures !uploading && form == old(form)
      ensures toasts == old(toasts) + ["Failed to upload image. Please try again."]
      ensures errors == old(errors) && updates == old(updates) && isLoading == old(isLoading)
      ensures closed == old(closed) && saved == old(saved)
    {
      uploading := false;
      toasts := toasts + ["Failed to upload image. Please try again."];
    }

    /** Submitting. The schema check runs on `ValidationInput`; `errorsList` is
        the thrown error's `errors` property (a list of issues, or undefined):
        when present it replaces the error map, otherwise the map is kept.
        `outcome` is how the update call ends if it is made. The update is
        the diff against the loaded profile's top-level properties, as the
        form computes it. */
    method Submit(isEmail: string -> bool, isUrl: string -> bool,
                  errorsList: Option<seq<Issue>>, outcome: ApiOutcome)
      returns (sent: Option<ProfileUpdate>)
      modifies this
      ensures form == old(form) && uploading == old(uploading)
      ensures !ProfileValid(ValidationInput(old(form), isSupplier), isEmail, isUrl) ==> (
        sent.None? && updates == old(updates) && closed == old(closed) && saved == old(saved)
        && isLoading == old(isLoading)
        && errors == (if errorsList.Some? then IssueMap(errorsList.value) else old(errors))
        && toasts == old(toasts) + ["Please fix the validation errors"])
      ensures ProfileValid(ValidationInput(old(form), isSupplier), isEmail, isUrl) ==> (
        errors == map[] && !isLoading
        && var u := ChangedFields(old(form), profile, userId, isSupplier);
        (NoChanges(u) ==> (sent.None? && updates == old(updates) && closed && saved == old(saved)
            && toasts == old(toasts) + ["No changes were made."]))
        && (!NoChanges(u) ==> (sent == Some(u) && updates == old(updates) + [u]
            && (outcome.Updated? ==> (saved && closed
                && toasts == old(toasts) + ["Profile updated successfully!"]))
            && (outcome.UpdateFailed? ==> (saved == old(saved) && closed == old(closed)
                && toasts == old(toasts) + ["Failed to update profile. Please try again."])))))
    {
      sent := None;
      if !ProfileValid(ValidationInput(form, isSupplier), isEmail, isUrl) {
        if errorsList.Some? {
          errors := CollectErrors(errorsList.value);
        }
        toasts := toasts + ["Please fix the validation errors"];
        return;
      }
      errors := map[];
      isLoading := true;
      var u := ChangedFields(form, profile, userId, isSupplier);
      if NoChanges(u) {
        toasts := toasts + ["No changes were made."];
        closed := true;
      } else {
        updates := updates + [u];
        sent := Some(u);
        if outcome.Updated? {
          toasts := toasts + ["Profile updated successfully!"];
          saved := true;
          closed := true;
        } else {
          toasts := toasts + ["Failed to update profile. Please try again."];
        }
      }
      isLoading := false;
    }
  }
}
