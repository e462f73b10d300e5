/**
 * The maintenance form: a new record or, under an `:id` route, an edit of an
 * existing one. Description and notes are optional; every other field is
 * checked by `validateForm`.
 */
module MaintenanceForm {
  import opened Wrappers
  import opened JsValues
  import opened Dates
  import opened Records
  import opened Seqs
  import opened FormState
  import MaintenanceContext

  /** `formData`; `kind` is the `type` input. An empty date or cost input is `None`. */
  datatype MaintenanceFormData = MaintenanceFormData(
    equipmentId: Id, kind: string, description: string, scheduledDate: Option<Day>,
    status: string, assignedTo: string, cost: Option<int>, notes: string)

  /** The initial `formData`: every field empty and status 'Scheduled'. */
  const EmptyForm: MaintenanceFormData := MaintenanceFormData(Str(""), "", "", None, "Scheduled", "", None, "")

  const MaintenanceKeys: set<string> := {"equipmentId", "type", "description", "scheduledDate", "status", "assignedTo", "cost", "notes"}

  const EquipmentRequired: string := "Equipment is required"
  const TypeRequired: string := "Maintenance type is required"
  const DateRequired: string := "Scheduled date is required"
  const AssigneeRequired: string := "Assigned person is required"
  const CostRequired: string := "Valid cost is required"

  /** `!cost || cost <= 0`. */
  predicate CostMissing(cost: Option<int>) {
    cost.None? || cost.value <= 0
  }

  /** Everything `validateForm` demands; description, status and notes are free. */
  predicate ValidForm(d: MaintenanceFormData) {
    && Truthy(d.equipmentId)
    && !AllWhiteSpace(d.kind)
    && d.scheduledDate.Some?
    && !AllWhiteSpace(d.assignedTo)
    && !CostMissing(d.cost)
  }

  /** The `newErrors` object `validateForm` builds: one message per failing field. */
  function Errors(d: MaintenanceFormData): (e: map<string, string>)
  {
    var e0: map<string, string> := map[];
    var e1 := if !Truthy(d.equipmentId) then e0["equipmentId" := EquipmentRequired] else e0;
    var e2 := if Trim(d.kind) == "" then e1["type" := TypeRequired] else e1;
    var e3 := if d.scheduledDate.None? then e2["scheduledDate" := DateRequired] else e2;
    var e4 := if Trim(d.assignedTo) == "" then e3["assignedTo" := AssigneeRequired] else e3;
    if CostMissing(d.cost) then e4["cost" := CostRequired] else e4
  }

  /**
   * What `validateForm` reports: each checked field is in the error map
   * exactly when it fails its test, with its message, and no other key is.
   */
  lemma ErrorsSpec(d: MaintenanceFormData)
    ensures Errors(d).Keys <= MaintenanceKeys
    ensures "equipmentId" in Errors(d) <==> !Truthy(d.equipmentId)
    ensures "type" in Errors(d) <==> AllWhiteSpace(d.kind)
    ensures "scheduledDate" in Errors(d) <==> d.scheduledDate.None?
    ensures "assignedTo" in Errors(d) <==> AllWhiteSpace(d.assignedTo)
    ensures "cost" in Errors(d) <==> CostMissing(d.cost)
    ensures "description" !in Errors(d) && "status" !in Errors(d) && "notes" !in Errors(d)
    ensures "equipmentId" in Errors(d) ==> Errors(d)["equipmentId"] == EquipmentRequired
    ensures "type" in Errors(d) ==> Errors(d)["type"] == TypeRequired
    ensures "scheduledDate" in Errors(d) ==> Errors(d)["scheduledDate"] == DateRequired
    ensures "assignedTo" in Errors(d) ==> Errors(d)["assignedTo"] == AssigneeRequired
    ensures "cost" in Errors(d) ==> Errors(d)["cost"] == CostRequired
  {
    TrimEmptyIff(d.kind);
    TrimEmptyIff(d.assignedTo);
  }

  /** The form submits exactly when it has no error. */
  lemma {:induction false} NoErrorsIffValid(d: MaintenanceFormData)
    ensures NoErrors(Errors(d)) <==> ValidForm(d)
  {
    ErrorsSpec(d);
    NoErrorsIff(Errors(d));
  }

  /** `{...formData, cost: parseFloat(formData.cost)}` of a valid form. */
  function Submitted(d: MaintenanceFormData): (r: MaintenanceData)
    requires ValidForm(d)
    ensures Truthy(r.equipmentId) && !AllWhiteSpace(r.kind) && !AllWhiteSpace(r.assignedTo) && r.cost > 0
  {
    MaintenanceData(d.equipmentId, d.kind, d.description, d.scheduledDate.value, d.status, d.assignedTo, d.cost.value, d.notes)
  }

  /** The edit prefill: the record's fields, a missing description or notes shown as `''`. */
  function FromRecord(r: Maintenance): MaintenanceFormData {
    MaintenanceFormData(
      r.equipmentId, r.kind, r.description.GetOr(""), Some(r.scheduledDate), r.status, r.assignedTo,
      Some(r.cost), r.notes.GetOr(""))
  }

  /** Opening the record a valid form just created shows that same form again. */
  lemma SubmitThenPrefill(d: MaintenanceFormData, id: Id)
    requires ValidForm(d)
    ensures FromRecord(NewMaintenance(Submitted(d), id)) == d
  {
  }

  /** Saving a prefilled form unchanged rewrites the record as it was, except that a missing description or notes becomes `''`. */
  lemma PrefillThenSubmit(r: Maintenance)
    requires ValidForm(FromRecord(r))
    ensures MergeMaintenance(r, MaintenanceDataAsPatch(Submitted(FromRecord(r))))
         == r.(description := Some(r.description.GetOr("")), notes := Some(r.notes.GetOr("")))
  {
  }

  /** `formData[name]`, `undefined` for a name the form lacks. */
  function Field(d: MaintenanceFormData, name: string): (v: Option<FormValue>)
    ensures v.Some? <==> name in MaintenanceKeys
  {
    if name == "equipmentId" then Some(IdValue(d.equipmentId))
    else if name == "type" then Some(Text(d.kind))
    else if name == "description" then Some(Text(d.description))
    else if name == "scheduledDate" then Some(DateValue(d.scheduledDate))
    else if name == "status" then Some(Text(d.status))
    else if name == "assignedTo" then Some(Text(d.assignedTo))
    else if name == "cost" then Some(Amount(d.cost))
    else if name == "notes" then Some(Text(d.notes))
    else None
  }

  /** Two forms holding the same value under every input name are the same form. */
  lemma {:induction false} FieldsDetermineForm(a: MaintenanceFormData, b: MaintenanceFormData)
    requires forall name :: name in MaintenanceKeys ==> Field(a, name) == Field(b, name)
    ensures a == b
  {
    assert Field(a, "equipmentId") == Field(b, "equipmentId");
    assert Field(a, "type") == Field(b, "type");
    assert Field(a, "description") == Field(b, "description");
    assert Field(a, "scheduledDate") == Field(b, "scheduledDate");
    assert Field(a, "status") == Field(b, "status");
    assert Field(a, "assignedTo") == Field(b, "assignedTo");
    assert Field(a, "cost") == Field(b, "cost");
    assert Field(a, "notes") == Field(b, "notes");
  }

  /** An edit one of the form's inputs can send. */
  predicate Fits(e: Edit) {
    || ((e.name == "type" || e.name == "description" || e.name == "status" || e.name == "assignedTo" || e.name == "notes") && e.value.Text?)
    || (e.name == "equipmentId" && e.value.IdValue? && e.value.id.Str?)
    || (e.name == "scheduledDate" && e.value.DateValue?)
    || (e.name == "cost" && e.value.Amount?)
  }

  /** `{...prev, [name]: value}`. */
  function ApplyEdit(d: MaintenanceFormData, e: Edit): (r: MaintenanceFormData)
    requires Fits(e)
    ensures Field(r, e.name) == Some(e.value)
    ensures forall name :: name != e.name ==> Field(r, name) == Field(d, name)
  {
    if e.name == "equipmentId" then d.(equipmentId := e.value.id)
    else if e.name == "type" then d.(kind := e.value.text)
    else if e.name == "description" then d.(description := e.value.text)
    else if e.name == "scheduledDate" then d.(scheduledDate := e.value.date)
    else if e.name == "status" then d.(status := e.value.text)
    else if e.name == "assignedTo" then d.(assignedTo := e.value.text)
    else if e.name == "cost" then d.(cost := e.value.amount)
    else d.(notes := e.value.text)
  }

  /** Description, status and notes are never checked: editing them leaves the errors as they were. */
  lemma UncheckedInputs(d: MaintenanceFormData, e: Edit)
    requires Fits(e) && (e.name == "description" || e.name == "status" || e.name == "notes")
    ensures Errors(ApplyEdit(d, e)) == Errors(d)
  {
    var r := ApplyEdit(d, e);
    assert Field(r, "equipmentId") == Field(d, "equipmentId");
    assert Field(r, "type") == Field(d, "type");
    assert Field(r, "scheduledDate") == Field(d, "scheduledDate");
    assert Field(r, "assignedTo") == Field(d, "assignedTo");
    assert Field(r, "cost") == Field(d, "cost");
  }

  /** The mounted form. */
  class Form {
    const routeId: Option<string>
    var formData: MaintenanceFormData
    var errors: map<string, string>

    constructor (routeId: Option<string>)
      ensures this.routeId == routeId && formData == EmptyForm && errors == map[]
    {
      this.routeId := routeId;
      formData := EmptyForm;
      errors := map[];
    }

    /** The edit-prefill effect: under an id route, the first record whose id is `===` the parsed id fills the form. */
    method Prefill(records: seq<Maintenance>)
      modifies this
      ensures errors == old(errors)
      ensures RouteHasId(routeId) && Find(records, MaintenanceContext.HasId(ParseInt(routeId.value))).Some? ==>
        formData == FromRecord(Find(records, MaintenanceContext.HasId(ParseInt(routeId.value))).value)
      ensures !(RouteHasId(routeId) && Find(records, MaintenanceContext.HasId(ParseInt(routeId.value))).Some?) ==>
        formData == old(formData)
    {
      if RouteHasId(routeId) {
        var record := Find(records, MaintenanceContext.HasId(ParseInt(routeId.value)));
        if record.Some? {
          formData := FromRecord(record.value);
        }
      }
    }

    /** `validateForm`. */
    method ValidateForm() returns (valid: bool)
      modifies this
      ensures formData == old(formData)
      ensures errors == Errors(formData)
      ensures valid <==> ValidForm(formData)
    {
      var newErrors: map<string, string> := map[];
      newErrors := if !Truthy(formData.equipmentId) then newErrors["equipmentId" := EquipmentRequired] else newErrors;
      newErrors := if Trim(formData.kind) == "" then newErrors["type" := TypeRequired] else newErrors;
      newErrors := if formData.scheduledDate.None? then newErrors["scheduledDate" := DateRequired] else newErrors;
      newErrors := if Trim(formData.assignedTo) == "" then newErrors["assignedTo" := AssigneeRequired] else newErrors;
      newErrors := if CostMissing(formData.cost) then newErrors["cost" := CostRequired] else newErrors;
      errors := newErrors;
      NoErrorsIffValid(formData);
      valid := |newErrors| == 0;
    }

    /** `handleChange`. */
    method HandleChange(e: Edit)
      requires Fits(e)
      modifies this
      ensures formData == ApplyEdit(old(formData), e)
      ensures errors == ClearError(old(errors), e.name)
    {
      formData := ApplyEdit(formData, e);
      errors := ClearError(errors, e.name);
    }

    /** `handleSubmit`: no write unless valid; then update under the parsed route id or add under `newId`. */
    method HandleSubmit(store: MaintenanceContext.MaintenanceProvider, newId: Id) returns (target: Option<string>)
      modifies this, store, store.storage
      ensures formData == old(formData) && errors == Errors(formData)
      ensures target.Some? <==> ValidForm(formData)
      ensures target.Some? ==> target.value == "/maintenance" && store.Persisted()
      ensures target.Some? ==> store.storage.items == old(store.storage.items)[MaintenanceKey := MaintenanceList(store.maintenance)]
      ensures store.loading == old(store.loading)
      ensures !ValidForm(formData) ==> store.maintenance == old(store.maintenance) && store.storage.items == old(store.storage.items)
      ensures ValidForm(formData) && RouteHasId(routeId) ==>
        store.maintenance == MaintenanceContext.Updated(old(store.maintenance), ParseInt(routeId.value), MaintenanceDataAsPatch(Submitted(formData)))
      ensures ValidForm(formData) && !RouteHasId(routeId) ==>
        store.maintenance == MaintenanceContext.Added(old(store.maintenance), Submitted(formData), newId)
      ensures old(store.storage.WellFormed()) ==> store.storage.WellFormed()
    {
      var valid := ValidateForm();
      if !valid {
        return None;
      }
      var data := Submitted(formData);
      if RouteHasId(routeId) {
        store.UpdateMaintenance(ParseInt(routeId.value), MaintenanceDataAsPatch(data));
      } else {
        store.AddMaintenance(data, newId);
      }
      target := Some("/maintenance");
    }
  }
}
