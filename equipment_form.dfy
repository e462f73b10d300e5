/**
 * The equipment form: a new item or, under an `:id` route, an edit of an
 * existing one. Only name, type and location are checked; status, condition
 * and the last-maintenance date are whatever the inputs hold.
 */
module EquipmentForm {
  import opened Wrappers
  import opened JsValues
  import opened Records
  import opened Seqs
  import opened FormState
  import EquipmentContext

  /** The names of the form's inputs; `type` is the item's `kind`. */
  const EquipmentKeys: set<string> := {"name", "type", "status", "condition", "location", "lastMaintenance"}

  const NameRequired: string := "Name is required"
  const TypeRequired: string := "Type is required"
  const LocationRequired: string := "Location is required"

  /**
   * The initial `formData`: empty name, type and location, status 'Available',
   * condition 'Good', and the last-maintenance date set to `today` (the date
   * part of the current instant's ISO text, supplied by the caller).
   */
  function DefaultForm(today: string): (p: EquipmentPatch)
    ensures p.HasFormFields() && p.id.None? && p.rentalHistory.None?
    ensures p.status == Some("Available") && p.condition == Some("Good") && p.lastMaintenance == Some(today)
    ensures p.name == Some("") && p.kind == Some("") && p.location == Some("")
  {
    EquipmentDataAsPatch(EquipmentData("", "", "Available", "Good", today, ""))
  }

  /** Everything `validateForm` demands. */
  predicate ValidForm(p: EquipmentPatch)
    requires p.HasFormFields()
  {
    !AllWhiteSpace(p.name.value) && !AllWhiteSpace(p.kind.value) && !AllWhiteSpace(p.location.value)
  }

  /** The `newErrors` object `validateForm` builds. */
  function Errors(p: EquipmentPatch): (e: map<string, string>)
    requires p.HasFormFields()
  {
    var e0: map<string, string> := map[];
    var e1 := if Trim(p.name.value) == "" then e0["name" := NameRequired] else e0;
    var e2 := if Trim(p.kind.value) == "" then e1["type" := TypeRequired] else e1;
    if Trim(p.location.value) == "" then e2["location" := LocationRequired] else e2
  }

  /**
   * What `validateForm` reports: each checked field is in the error map
   * exactly when it fails its test, with its message, and no other key is.
   */
  lemma ErrorsSpec(p: EquipmentPatch)
    requires p.HasFormFields()
    ensures Errors(p).Keys <= {"name", "type", "location"}
    ensures "name" in Errors(p) <==> AllWhiteSpace(p.name.value)
    ensures "type" in Errors(p) <==> AllWhiteSpace(p.kind.value)
    ensures "location" in Errors(p) <==> AllWhiteSpace(p.location.value)
    ensures "name" in Errors(p) ==> Errors(p)["name"] == NameRequired
    ensures "type" in Errors(p) ==> Errors(p)["type"] == TypeRequired
    ensures "location" in Errors(p) ==> Errors(p)["location"] == LocationRequired
  {
    TrimEmptyIff(p.name.value);
    TrimEmptyIff(p.kind.value);
    TrimEmptyIff(p.location.value);
  }

  /** The form submits exactly when it has no error. */
  lemma {:induction false} NoErrorsIffValid(p: EquipmentPatch)
    requires p.HasFormFields()
    ensures NoErrors(Errors(p)) <==> ValidForm(p)
  {
    ErrorsSpec(p);
    NoErrorsIff(Errors(p));
  }

  /** `formData[name]` for one of the six inputs, `undefined` for any other name. */
  function Field(p: EquipmentPatch, name: string): (v: Option<string>)
    ensures name !in EquipmentKeys ==> v.None?
  {
    if name == "name" then p.name
    else if name == "type" then p.kind
    else if name == "status" then p.status
    else if name == "condition" then p.condition
    else if name == "location" then p.location
    else if name == "lastMaintenance" then p.lastMaintenance
    else None
  }

  /** Two forms with the same id, history and input values are the same form. */
  lemma {:induction false} FieldsDetermineForm(a: EquipmentPatch, b: EquipmentPatch)
    requires forall name :: name in EquipmentKeys ==> Field(a, name) == Field(b, name)
    requires a.id == b.id && a.rentalHistory == b.rentalHistory
    ensures a == b
  {
    assert Field(a, "name") == Field(b, "name");
    assert Field(a, "type") == Field(b, "type");
    assert Field(a, "status") == Field(b, "status");
    assert Field(a, "condition") == Field(b, "condition");
    assert Field(a, "location") == Field(b, "location");
    assert Field(a, "lastMaintenance") == Field(b, "lastMaintenance");
  }

  /** An edit one of the form's inputs can send: every input holds text. */
  predicate Fits(e: Edit) {
    e.name in EquipmentKeys && e.value.Text?
  }

  /** `{...prev, [name]: value}`: the named input takes the text, every other key keeps its own. */
  function ApplyEdit(p: EquipmentPatch, e: Edit): (r: EquipmentPatch)
    requires Fits(e)
    ensures Field(r, e.name) == Some(e.value.text)
    ensures forall name :: name != e.name ==> Field(r, name) == Field(p, name)
    ensures r.id == p.id && r.rentalHistory == p.rentalHistory
    ensures p.HasFormFields() ==> r.HasFormFields()
  {
    var v := Some(e.value.text);
    if e.name == "name" then p.(name := v)
    else if e.name == "type" then p.(kind := v)
    else if e.name == "status" then p.(status := v)
    else if e.name == "condition" then p.(condition := v)
    else if e.name == "location" then p.(location := v)
    else p.(lastMaintenance := v)
  }

  /** Status, condition and the date are never checked: editing them leaves the errors as they were. */
  lemma UncheckedInputs(p: EquipmentPatch, e: Edit)
    requires p.HasFormFields() && Fits(e)
    requires e.name == "status" || e.name == "condition" || e.name == "lastMaintenance"
    ensures Errors(ApplyEdit(p, e)) == Errors(p)
  {
    assert Field(ApplyEdit(p, e), "name") == Field(p, "name");
    assert Field(ApplyEdit(p, e), "type") == Field(p, "type");
    assert Field(ApplyEdit(p, e), "location") == Field(p, "location");
  }

  /** Saving a prefilled form unchanged rewrites the item exactly as it was. */
  lemma PrefillThenSubmit(item: Equipment)
    ensures MergeEquipment(item, EquipmentAsPatch(item)) == item
  {
    MergeWholeItem(item, item);
  }

  /** The mounted form. */
  class Form {
    const routeId: Option<string>
    var formData: EquipmentPatch
    var errors: map<string, string>

    /** The six inputs are always present, and a new-item form never holds an id or a history. */
    ghost predicate Valid()
      reads this
    {
      formData.HasFormFields() && (!RouteHasId(routeId) ==> formData.id.None? && formData.rentalHistory.None?)
    }

    constructor (routeId: Option<string>, today: string)
      ensures Valid()
      ensures this.routeId == routeId && formData == DefaultForm(today) && errors == map[]
    {
      this.routeId := routeId;
      formData := DefaultForm(today);
      errors := map[];
    }

    /** The edit-prefill effect: under an id route the first item whose id is `===` the parsed id becomes the whole form. */
    method Prefill(equipment: seq<Equipment>)
      requires Valid()
      modifies this
      ensures Valid() && errors == old(errors)
      ensures RouteHasId(routeId) && Find(equipment, EquipmentContext.HasId(ParseInt(routeId.value))).Some? ==>
        formData == EquipmentAsPatch(Find(equipment, EquipmentContext.HasId(ParseInt(routeId.value))).value)
      ensures !(RouteHasId(routeId) && Find(equipment, EquipmentContext.HasId(ParseInt(routeId.value))).Some?) ==>
        formData == old(formData)
    {
      if RouteHasId(routeId) {
        var item := Find(equipment, EquipmentContext.HasId(ParseInt(routeId.value)));
        if item.Some? {
          formData := EquipmentAsPatch(item.value);
        }
      }
    }

    /** `validateForm`. */
    method ValidateForm() returns (valid: bool)
      requires Valid()
      modifies this
      ensures Valid() && formData == old(formData)
      ensures errors == Errors(formData)
      ensures valid <==> ValidForm(formData)
    {
      var newErrors: map<string, string> := map[];
      newErrors := if Trim(formData.name.value) == "" then newErrors["name" := NameRequired] else newErrors;
      newErrors := if Trim(formData.kind.value) == "" then newErrors["type" := TypeRequired] else newErrors;
      newErrors := if Trim(formData.location.value) == "" then newErrors["location" := LocationRequired] else newErrors;
      errors := newErrors;
      NoErrorsIffValid(formData);
      valid := |newErrors| == 0;
    }

    /** `handleChange`. */
    method HandleChange(e: Edit)
      requires Valid() && Fits(e)
      modifies this
      ensures Valid()
      ensures formData == ApplyEdit(old(formData), e)
      ensures errors == ClearError(old(errors), e.name)
    {
      formData := ApplyEdit(formData, e);
      errors := ClearError(errors, e.name);
    }

    /**
     * `handleSubmit`: no write unless valid; then the whole form is the patch
     * for the item under the parsed route id, or the six inputs become a new
     * item under `newId`; either way status is stored exactly as typed.
     */
    method HandleSubmit(store: EquipmentContext.EquipmentProvider, newId: Id) returns (target: Option<string>)
      requires Valid()
      modifies this, store, store.storage
      ensures Valid() && formData == old(formData) && errors == Errors(formData)
      ensures target.Some? <==> ValidForm(formData)
      ensures target.Some? ==> target.value == "/equipment" && store.Persisted()
      ensures target.Some? ==> store.storage.items == old(store.storage.items)[EquipmentKey := EquipmentList(store.equipment)]
      ensures store.loading == old(store.loading)
      ensures !ValidForm(formData) ==> store.equipment == old(store.equipment) && store.storage.items == old(store.storage.items)
      ensures ValidForm(formData) && RouteHasId(routeId) ==>
        store.equipment == EquipmentContext.Updated(old(store.equipment), ParseInt(routeId.value), formData)
      ensures ValidForm(formData) && !RouteHasId(routeId) ==>
        store.equipment == EquipmentContext.Added(old(store.equipment), formData.FormData(), newId)
      ensures old(store.storage.WellFormed()) ==> store.storage.WellFormed()
    {
      var valid := ValidateForm();
      if !valid {
        return None;
      }
      if RouteHasId(routeId) {
        store.UpdateEquipment(ParseInt(routeId.value), formData);
      } else {
        store.AddEquipment(formData.FormData(), newId);
      }
      target := Some("/equipment");
    }
  }
}
