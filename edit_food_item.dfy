/** The food-item form used to add, edit and view an item: loading an item
    into the form, the read-only view, price parsing, and what a submit sends. */
module EditFoodItem {
  import opened Common
  import opened FormErrors

  /** The form's values. Prices are `real`: NaN and infinities are not modelled. */
  datatype FoodForm = FoodForm(
    name: string, description: string, category: string,
    price: real, employeeprice: real, hospitalprice: real,
    available: bool, imageUrl: string, dietType: string)

  const InitialForm: FoodForm := FoodForm("", "", "", 0.0, 0.0, 0.0, true, "", "")

  /** An item as the server returns it; any field may be missing. */
  datatype LoadedFoodItem = LoadedFoodItem(
    name: Option<string>, description: Option<string>, category: Option<string>,
    price: Option<real>, employeeprice: Option<real>, hospitalprice: Option<real>,
    available: Option<bool>, imageUrl: Option<string>, dietType: Option<string>)

  /** `x || 0` on a number: a missing number and 0 both give 0. */
  function NumberOr0(x: Option<real>): (r: real)
    ensures x.Some? ==> r == x.value
    ensures x.None? ==> r == 0.0
  {
    Coalesce(x, 0.0)
  }

  /** The text fields and prices as loaded: missing text is "", a missing price 0. */
  function LoadedFields(f: LoadedFoodItem, available: bool): FoodForm {
    FoodForm(OrElse(f.name, ""), OrElse(f.description, ""), OrElse(f.category, ""),
             NumberOr0(f.price), NumberOr0(f.employeeprice), NumberOr0(f.hospitalprice),
             available, OrElse(f.imageUrl, ""), OrElse(f.dietType, ""))
  }

  /** The load as written: `available: foodItem.available || true`. */
  function FromLoadedAsWritten(f: LoadedFoodItem): (r: FoodForm)
    ensures r.available
    ensures r == FromLoaded(f).(available := true)
  {
    LoadedFields(f, (f.available.Some? && f.available.value) || true)
  }

  /** `|| true` is always true: an item the server marks unavailable loads as
      available, and a save from the form sends it back as available. */
  lemma UnavailableItemLoadsAsAvailable(f: LoadedFoodItem)
    requires f.available == Some(false)
    ensures FromLoadedAsWritten(f).available
    ensures FromLoadedAsWritten(f).available != f.available.value
  {
  }

  /** The load as intended, `available ?? true`: the server's flag is kept and
      only a missing flag defaults to available. */
  function FromLoaded(f: LoadedFoodItem): (r: FoodForm)
    ensures f.available.Some? ==> r.available == f.available.value
    ensures f.available.None? ==> r.available
  {
    LoadedFields(f, Coalesce(f.available, true))
  }

  /** What the intended load keeps: every field the server sends (an empty
      text stays empty, 0 stays 0), and the defaults only for missing ones. */
  lemma LoadKeepsServerValues(f: LoadedFoodItem)
    ensures f.name.Some? ==> FromLoaded(f).name == f.name.value
    ensures f.category.Some? ==> FromLoaded(f).category == f.category.value
    ensures f.price.Some? ==> FromLoaded(f).price == f.price.value
    ensures f.imageUrl.Some? ==> FromLoaded(f).imageUrl == f.imageUrl.value
    ensures f.description.Some? ==> FromLoaded(f).description == f.description.value
    ensures f.dietType.Some? ==> FromLoaded(f).dietType == f.dietType.value
    ensures f.employeeprice.Some? ==> FromLoaded(f).employeeprice == f.employeeprice.value
    ensures f.hospitalprice.Some? ==> FromLoaded(f).hospitalprice == f.hospitalprice.value
    ensures f.available.Some? ==> FromLoaded(f).available == f.available.value
    ensures f == LoadedFoodItem(None, None, None, None, None, None, None, None, None) ==> FromLoaded(f) == InitialForm
    ensures FromLoaded(f).available == FromLoadedAsWritten(f).available <==> f.available != Some(false)
  {
  }

  /** The form's inputs. Each price arrives as text and is read with
      `parseFloat(text) || 0`; `parsed` is `parseFloat`'s value, None for NaN. */
  datatype FieldChange =
    | NameChange(text: string)
    | CategoryChange(text: string)
    | DietTypeChange(text: string)
    | DescriptionChange(text: string)
    | PriceChange(parsed: Option<real>)
    | EmployeePriceChange(parsed: Option<real>)
    | HospitalPriceChange(parsed: Option<real>)
    | AvailableChange(flag: bool)

  function ApplyChange(f: FoodForm, c: FieldChange): (r: FoodForm)
    ensures c.PriceChange? ==> r == f.(price := NumberOr0(c.parsed))
    ensures c.NameChange? ==> r == f.(name := c.text)
  {
    match c
    case NameChange(t) => f.(name := t)
    case CategoryChange(t) => f.(category := t)
    case DietTypeChange(t) => f.(dietType := t)
    case DescriptionChange(t) => f.(description := t)
    case PriceChange(p) => f.(price := NumberOr0(p))
    case EmployeePriceChange(p) => f.(employeeprice := NumberOr0(p))
    case HospitalPriceChange(p) => f.(hospitalprice := NumberOr0(p))
    case AvailableChange(b) => f.(available := b)
  }

  /** A change touches its own field and no other; a price that does not
      parse reads as 0. */
  lemma ChangeTouchesOneField(f: FoodForm, c: FieldChange)
    ensures c.PriceChange? && c.parsed.None? ==> ApplyChange(f, c).price == 0.0
    ensures !c.PriceChange? ==> ApplyChange(f, c).price == f.price
    ensures !c.NameChange? ==> ApplyChange(f, c).name == f.name
    ensures !c.AvailableChange? ==> ApplyChange(f, c).available == f.available
    ensures !c.CategoryChange? ==> ApplyChange(f, c).category == f.category
    ensures !c.DietTypeChange? ==> ApplyChange(f, c).dietType == f.dietType
    ensures !c.DescriptionChange? ==> ApplyChange(f, c).description == f.description
    ensures !c.EmployeePriceChange? ==> ApplyChange(f, c).employeeprice == f.employeeprice
    ensures !c.HospitalPriceChange? ==> ApplyChange(f, c).hospitalprice == f.hospitalprice
    ensures ApplyChange(f, c).imageUrl == f.imageUrl
  {
  }

  /** What the schema's `parse` does with the form: it passes, fails with
      the schema's messages, or throws something that is not a schema error. */
  datatype SchemaCheck = Passed | Issues(messages: seq<string>) | ParseThrew

  const SaveFailedToast: string := "Failed to save food item. Please try again."

  /** The call a submit makes. */
  datatype SubmitCall = NoCall | UpdateFoodItem(id: int, data: FoodForm) | AddCallback(data: FoodForm)

  class FoodItemFormState {
    const mode: FormMode
    /** `foodItemId`; a missing id and 0 are both falsy. */
    const foodItemId: Option<int>
    const hasOnSubmit: bool
    var formData: FoodForm
    var loading: bool
    var saving: bool
    var error: Option<string>
    var toasts: seq<string>
    var navigatedTo: Option<string>

    predicate ReadOnly()
      reads this
    {
      mode == ViewMode
    }

    predicate HasId()
      reads this
    {
      foodItemId.Some? && foodItemId.value != 0
    }

    constructor (mode: FormMode, foodItemId: Option<int>, hasOnSubmit: bool)
      ensures this.mode == mode && this.foodItemId == foodItemId && this.hasOnSubmit == hasOnSubmit
      ensures formData == InitialForm && loading && !saving && error.None? && toasts == [] && navigatedTo.None?
    {
      this.mode := mode;
      this.foodItemId := foodItemId;
      this.hasOnSubmit := hasOnSubmit;
      formData := InitialForm;
      loading := true;
      saving := false;
      error := None;
      toasts := [];
      navigatedTo := None;
    }

    /** The load on mount: only editing or viewing an item with an id
        fetches; `result` is that fetch. Returns whether a fetch was made. */
    method Load(result: Fetch<Option<LoadedFoodItem>>) returns (fetched: bool)
      modifies this
      ensures fetched <==> (mode == EditMode || mode == ViewMode) && HasId()
      ensures !loading && saving == old(saving) && navigatedTo == old(navigatedTo)
      ensures fetched && result.Fetched? && result.data.Some? ==> formData == FromLoadedAsWritten(result.data.value)
      ensures !fetched || result.FetchFailed? || result.data.None? ==> formData == old(formData)
      ensures fetched && result.FetchFailed? ==> (error == Some("Failed to load food item details")
        && toasts == old(toasts) + ["Failed to load food item details"])
      ensures !(fetched && result.FetchFailed?) ==> error == old(error) && toasts == old(toasts)
    {
      fetched := (mode == EditMode || mode == ViewMode) && HasId();
      if fetched {
        loading := true;
        match result {
          case Fetched(data) =>
            if data.Some? {
              formData := FromLoadedAsWritten(data.value);
            }
          case FetchFailed =>
            error := Some("Failed to load food item details");
            toasts := toasts + ["Failed to load food item details"];
        }
      }
      loading := false;
    }

    /** Editing a field; the view mode ignores every change. */
    method HandleChange(c: FieldChange)
      modifies this
      ensures formData == (if ReadOnly() then old(formData) else ApplyChange(old(formData), c))
      ensures loading == old(loading) && saving == old(saving) && error == old(error)
      ensures toasts == old(toasts) && navigatedTo == old(navigatedTo)
    {
      if ReadOnly() {
        return;
      }
      formData := ApplyChange(formData, c);
    }

    method ImageUploadStart()
      modifies this
      ensures toasts == old(toasts) + ["Uploading image..."]
      ensures formData == old(formData) && loading == old(loading) && saving == old(saving)
      ensures error == old(error) && navigatedTo == old(navigatedTo)
    {
      toasts := toasts + ["Uploading image..."];
    }

    method ImageUploadSuccess(fileUrl: string)
      modifies this
      ensures formData == old(formData).(imageUrl := fileUrl)
      ensures toasts == old(toasts) + ["Image uploaded successfully!"]
      ensures loading == old(loading) && saving == old(saving) && error == old(error) && navigatedTo == old(navigatedTo)
    {
      formData := formData.(imageUrl := fileUrl);
      toasts := toasts + ["Image uploaded successfully!"];
    }

    method ImageUploadError(message: string)
      modifies this
      ensures toasts == old(toasts) + ["Image upload failed: " + message]
      ensures formData == old(formData) && loading == old(loading) && saving == old(saving)
      ensures error == old(error) && navigatedTo == old(navigatedTo)
    {
      toasts := toasts + ["Image upload failed: " + message];
    }

    /** Submitting. `check` is the outcome of the schema's `parse` (when it
        passes, its data are the form's values). Editing an item with an id
        sends an update and returns to the list; adding hands the data to the
        caller's `onSubmit`, if there is one, and `callbackFailed` is whether
        that call rejects. The update wrapper swallows its own failure, so the
        success toast follows every update. Every throw that is not a schema
        failure shows the generic save failure. The button is disabled while
        saving. */
    method Submit(check: SchemaCheck, callbackFailed: bool) returns (call: SubmitCall)
      requires !saving
      modifies this
      ensures !saving && formData == old(formData) && loading == old(loading) && error == old(error)
      ensures ReadOnly() ==> call == NoCall && toasts == old(toasts) && navigatedTo == old(navigatedTo)
      ensures !ReadOnly() && check.Issues? ==> (call == NoCall && navigatedTo == old(navigatedTo)
        && toasts == old(toasts) + [JoinMessages(check.messages)])
      ensures !ReadOnly() && check.ParseThrew? ==> (call == NoCall && navigatedTo == old(navigatedTo)
        && toasts == old(toasts) + [SaveFailedToast])
      ensures !ReadOnly() && check.Passed? && mode == EditMode && HasId() ==> (
        call == UpdateFoodItem(foodItemId.value, formData)
        && toasts == old(toasts) + ["Food item updated successfully!"] && navigatedTo == Some("/food-items"))
      ensures !ReadOnly() && check.Passed? && mode == AddMode ==> (
        call == (if hasOnSubmit then AddCallback(formData) else NoCall)
        && toasts == old(toasts) + (if hasOnSubmit && callbackFailed then [SaveFailedToast] else [])
        && navigatedTo == old(navigatedTo))
      ensures !ReadOnly() && check.Passed? && mode == EditMode && !HasId() ==>
        call == NoCall && toasts == old(toasts) && navigatedTo == old(navigatedTo)
    {
      call := NoCall;
      if ReadOnly() {
        return;
      }
      saving := true;
      match check {
        case Issues(messages) =>
          toasts := toasts + [JoinMessages(messages)];
        case ParseThrew =>
          toasts := toasts + [SaveFailedToast];
        case Passed =>
          if mode == EditMode && HasId() {
            call := UpdateFoodItem(foodItemId.value, formData);
            toasts := toasts + ["Food item updated successfully!"];
            navigatedTo := Some("/food-items");
          } else if mode == AddMode && hasOnSubmit {
            call := AddCallback(formData);
            if callbackFailed {
              toasts := toasts + [SaveFailedToast];
            }
          }
      }
      saving := false;
    }
  }
}
