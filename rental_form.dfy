/**
 * The rental form: a new rental or, under an `:id` route, an edit of an
 * existing one. Its state is the `formData` record and the `errors` object;
 * `validateForm` fills the errors field by field, `handleChange` writes one
 * field and blanks that field's error, and `handleSubmit` writes to the
 * rentals provider only when the form is valid.
 */
module RentalForm {
  import opened Wrappers
  import opened JsValues
  import opened Dates
  import opened Records
  import opened Seqs
  import opened FormState
  import RentalsContext

  /**
   * `formData`. The text inputs hold strings; the equipment `<select>` holds
   * its option value (a string, or the stored id after an edit prefill); an
   * empty date or fee input is `None`.
   */
  datatype RentalFormData = RentalFormData(
    customerName: string, equipmentId: Id, startDate: Option<Day>, endDate: Option<Day>,
    rentalFee: Option<int>, status: string, notes: string)

  /** The initial `formData`: every field empty and status 'Active'. */
  const EmptyForm: RentalFormData := RentalFormData("", Str(""), None, None, None, "Active", "")

  /** The names of the form's inputs, which are also its error keys. */
  const RentalKeys: set<string> := {"customerName", "equipmentId", "startDate", "endDate", "rentalFee", "status", "notes"}

  const CustomerNameRequired: string := "Customer name is required"
  const EquipmentRequired: string := "Equipment is required"
  const StartDateRequired: string := "Start date is required"
  const EndDateRequired: string := "End date is required"
  const EndBeforeStart: string := "End date must be after start date"
  const FeeRequired: string := "Valid rental fee is required"

  /** `!fee || fee <= 0`: an empty input, zero and negative amounts all fail. */
  predicate FeeMissing(fee: Option<int>) {
    fee.None? || fee.value <= 0
  }

  /** Both dates given and the start strictly after the end. */
  predicate EndsBeforeStart(d: RentalFormData) {
    d.startDate.Some? && d.endDate.Some? && d.startDate.value > d.endDate.value
  }

  /** Everything `validateForm` demands, as one condition. */
  predicate ValidForm(d: RentalFormData) {
    && !AllWhiteSpace(d.customerName)
    && Truthy(d.equipmentId)
    && d.startDate.Some? && d.endDate.Some?
    && d.startDate.value <= d.endDate.value
    && !FeeMissing(d.rentalFee)
  }

  /**
   * The `newErrors` object `validateForm` builds: one message per failing
   * field, and for the end date the ordering message overriding the
   * missing-value one (which cannot both apply).
   */
  function Errors(d: RentalFormData): (e: map<string, string>)
  {
    var e0: map<string, string> := map[];
    var e1 := if Trim(d.customerName) == "" then e0["customerName" := CustomerNameRequired] else e0;
    var e2 := if !Truthy(d.equipmentId) then e1["equipmentId" := EquipmentRequired] else e1;
    var e3 := if d.startDate.None? then e2["startDate" := StartDateRequired] else e2;
    var e4 := if d.endDate.None? then e3["endDate" := EndDateRequired] else e3;
    var e5 := if EndsBeforeStart(d) then e4["endDate" := EndBeforeStart] else e4;
    if FeeMissing(d.rentalFee) then e5["rentalFee" := FeeRequired] else e5
  }

  /**
   * What `validateForm` reports: each checked field is in the error map
   * exactly when it fails its test, with its message, and no other key is.
   */
  lemma ErrorsSpec(d: RentalFormData)
    ensures Errors(d).Keys <= {"customerName", "equipmentId", "startDate", "endDate", "rentalFee"}
    ensures "customerName" in Errors(d) <==> AllWhiteSpace(d.customerName)
    ensures "equipmentId" in Errors(d) <==> !Truthy(d.equipmentId)
    ensures "startDate" in Errors(d) <==> d.startDate.None?
    ensures "endDate" in Errors(d) <==> d.endDate.None? || EndsBeforeStart(d)
    ensures "rentalFee" in Errors(d) <==> FeeMissing(d.rentalFee)
    ensures "customerName" in Errors(d) ==> Errors(d)["customerName"] == CustomerNameRequired
    ensures "equipmentId" in Errors(d) ==> Errors(d)["equipmentId"] == EquipmentRequired
    ensures "startDate" in Errors(d) ==> Errors(d)["startDate"] == StartDateRequired
    ensures "endDate" in Errors(d) ==> Errors(d)["endDate"] == if d.endDate.None? then EndDateRequired else EndBeforeStart
    ensures "rentalFee" in Errors(d) ==> Errors(d)["rentalFee"] == FeeRequired
  {
    TrimEmptyIff(d.customerName);
  }

  /** The form submits exactly when it has no error; a rental may start and end on the same day. */
  lemma {:induction false} NoErrorsIffValid(d: RentalFormData)
    ensures NoErrors(Errors(d)) <==> ValidForm(d)
  {
    ErrorsSpec(d);
    var e := Errors(d);
    NoErrorsIff(e);
    if !ValidForm(d) {
      if !AllWhiteSpace(d.customerName) && Truthy(d.equipmentId) && d.startDate.Some? && d.endDate.Some? && !FeeMissing(d.rentalFee) {
        assert "endDate" in e;
      }
    }
  }

  /** `{...formData, rentalFee: parseFloat(formData.rentalFee)}` of a valid form. */
  function Submitted(d: RentalFormData): (r: RentalData)
    requires ValidForm(d)
    ensures !AllWhiteSpace(r.customerName) && Truthy(r.equipmentId)
    ensures r.startDate <= r.endDate && r.rentalFee > 0
  {
    RentalData(d.customerName, d.equipmentId, d.startDate.value, d.endDate.value, d.rentalFee.value, d.status, d.notes)
  }

  /** The edit prefill: the rental's fields, with missing notes shown as `''`. */
  function FromRental(r: Rental): RentalFormData {
    RentalFormData(r.customerName, r.equipmentId, Some(r.startDate), Some(r.endDate), Some(r.rentalFee), r.status, r.notes.GetOr(""))
  }

  /** Opening the rental a valid form just created shows that same form again. */
  lemma SubmitThenPrefill(d: RentalFormData, id: Id)
    requires ValidForm(d)
    ensures FromRental(NewRental(Submitted(d), id)) == d
  {
  }

  /** Saving a prefilled form unchanged rewrites the rental as it was, except that missing notes become `''`. */
  lemma PrefillThenSubmit(r: Rental)
    requires ValidForm(FromRental(r))
    ensures MergeRental(r, RentalDataAsPatch(Submitted(FromRental(r)))) == r.(notes := Some(r.notes.GetOr("")))
  {
  }

  /** `formData[name]`: the value under an input's name, `undefined` for a name the form lacks. */
  function Field(d: RentalFormData, name: string): (v: Option<FormValue>)
    ensures v.Some? <==> name in RentalKeys
  {
    if name == "customerName" then Some(Text(d.customerName))
    else if name == "equipmentId" then Some(IdValue(d.equipmentId))
    else if name == "startDate" then Some(DateValue(d.startDate))
    else if name == "endDate" then Some(DateValue(d.endDate))
    else if name == "rentalFee" then Some(Amount(d.rentalFee))
    else if name == "status" then Some(Text(d.status))
    else if name == "notes" then Some(Text(d.notes))
    else None
  }

  /** Two forms holding the same value under every input name are the same form. */
  lemma {:induction false} FieldsDetermineForm(a: RentalFormData, b: RentalFormData)
    requires forall name :: name in RentalKeys ==> Field(a, name) == Field(b, name)
    ensures a == b
  {
    assert Field(a, "customerName") == Field(b, "customerName");
    assert Field(a, "equipmentId") == Field(b, "equipmentId");
    assert Field(a, "startDate") == Field(b, "startDate");
    assert Field(a, "endDate") == Field(b, "endDate");
    assert Field(a, "rentalFee") == Field(b, "rentalFee");
    assert Field(a, "status") == Field(b, "status");
    assert Field(a, "notes") == Field(b, "notes");
  }

  /** An edit one of the form's inputs can send: its name and a value of that input's kind. */
  predicate Fits(e: Edit) {
    || ((e.name == "customerName" || e.name == "status" || e.name == "notes") && e.value.Text?)
    || (e.name == "equipmentId" && e.value.IdValue? && e.value.id.Str?)
    || ((e.name == "startDate" || e.name == "endDate") && e.value.DateValue?)
    || (e.name == "rentalFee" && e.value.Amount?)
  }

  /** `{...prev, [name]: value}`: the named field takes the value and every other field keeps its own. */
  function ApplyEdit(d: RentalFormData, e: Edit): (r: RentalFormData)
    requires Fits(e)
    ensures Field(r, e.name) == Some(e.value)
    ensures forall name :: name != e.name ==> Field(r, name) == Field(d, name)
  {
    if e.name == "customerName" then d.(customerName := e.value.text)
    else if e.name == "equipmentId" then d.(equipmentId := e.value.id)
    else if e.name == "startDate" then d.(startDate := e.value.date)
    else if e.name == "endDate" then d.(endDate := e.value.date)
    else if e.name == "rentalFee" then d.(rentalFee := e.value.amount)
    else if e.name == "status" then d.(status := e.value.text)
    else d.(notes := e.value.text)
  }

  /** Status and notes are never checked: editing them leaves the errors as they were. */
  lemma UncheckedInputs(d: RentalFormData, e: Edit)
    requires Fits(e) && (e.name == "status" || e.name == "notes")
    ensures Errors(ApplyEdit(d, e)) == Errors(d)
  {
    var r := ApplyEdit(d, e);
    assert Field(r, "customerName") == Field(d, "customerName");
    assert Field(r, "equipmentId") == Field(d, "equipmentId");
    assert Field(r, "startDate") == Field(d, "startDate");
    assert Field(r, "endDate") == Field(d, "endDate");
    assert Field(r, "rentalFee") == Field(d, "rentalFee");
  }

  /**
   * A rental whose equipment was picked in the form stores the option's text,
   * so no numeric equipment id is ever strictly equal to it.
   */
  lemma PickedEquipmentIsText(d: RentalFormData, e: Edit, n: int)
    requires Fits(e) && e.name == "equipmentId" && ValidForm(ApplyEdit(d, e))
    ensures !StrictEq(Submitted(ApplyEdit(d, e)).equipmentId, Num(n))
  {
  }

  /** The mounted form: its route id, fixed for the component's life, and its two pieces of state. */
  class Form {
    const routeId: Option<string>
    var formData: RentalFormData
    var errors: map<string, string>

    constructor (routeId: Option<string>)
      ensures this.routeId == routeId && formData == EmptyForm && errors == map[]
    {
      this.routeId := routeId;
      formData := EmptyForm;
      errors := map[];
    }

    /** The edit-prefill effect: under an id route, the first rental whose id is `===` the parsed id fills the form. */
    method Prefill(rentals: seq<Rental>)
      modifies this
      ensures errors == old(errors)
      ensures RouteHasId(routeId) && Find(rentals, RentalsContext.HasId(ParseInt(routeId.value))).Some? ==>
        formData == FromRental(Find(rentals, RentalsContext.HasId(ParseInt(routeId.value))).value)
      ensures !(RouteHasId(routeId) && Find(rentals, RentalsContext.HasId(ParseInt(routeId.value))).Some?) ==>
        formData == old(formData)
    {
      if RouteHasId(routeId) {
        var rental := Find(rentals, RentalsContext.HasId(ParseInt(routeId.value)));
        if rental.Some? {
          formData := FromRental(rental.value);
        }
      }
    }

    /** `validateForm`: rebuilds `errors` from the current fields and reports whether none failed. */
    method ValidateForm() returns (valid: bool)
      modifies this
      ensures formData == old(formData)
      ensures errors == Errors(formData)
      ensures valid <==> ValidForm(formData)
    {
      var newErrors: map<string, string> := map[];
      newErrors := if Trim(formData.customerName) == "" then newErrors["customerName" := CustomerNameRequired] else newErrors;
      newErrors := if !Truthy(formData.equipmentId) then newErrors["equipmentId" := EquipmentRequired] else newErrors;
      newErrors := if formData.startDate.None? then newErrors["startDate" := StartDateRequired] else newErrors;
      newErrors := if formData.endDate.None? then newErrors["endDate" := EndDateRequired] else newErrors;
      newErrors := if EndsBeforeStart(formData) then newErrors["endDate" := EndBeforeStart] else newErrors;
      newErrors := if FeeMissing(formData.rentalFee) then newErrors["rentalFee" := FeeRequired] else newErrors;
      errors := newErrors;
      NoErrorsIffValid(formData);
      valid := |newErrors| == 0;
    }

    /** `handleChange`: writes the one named field and blanks only that field's pending error. */
    method HandleChange(e: Edit)
      requires Fits(e)
      modifies this
      ensures formData == ApplyEdit(old(formData), e)
      ensures errors == ClearError(old(errors), e.name)
    {
      formData := ApplyEdit(formData, e);
      errors := ClearError(errors, e.name);
    }

    /**
     * `handleSubmit`: an invalid form writes nothing and stays put; a valid
     * one updates the rental under the parsed route id, or adds a new rental
     * under `newId`, and then navigates to the rentals list.
     */
    method HandleSubmit(store: RentalsContext.RentalsProvider, newId: Id) returns (target: Option<string>)
      modifies this, store, store.storage
      ensures formData == old(formData) && errors == Errors(formData)
      ensures target.Some? <==> ValidForm(formData)
      ensures target.Some? ==> target.value == "/rentals" && store.Persisted()
      ensures target.Some? ==> store.storage.items == old(store.storage.items)[RentalsKey := RentalList(store.rentals)]
      ensures store.loading == old(store.loading)
      ensures !ValidForm(formData) ==> store.rentals == old(store.rentals) && store.storage.items == old(store.storage.items)
      ensures ValidForm(formData) && RouteHasId(routeId) ==>
        store.rentals == RentalsContext.Updated(old(store.rentals), ParseInt(routeId.value), RentalDataAsPatch(Submitted(formData)))
      ensures ValidForm(formData) && !RouteHasId(routeId) ==>
        store.rentals == RentalsContext.Added(old(store.rentals), Submitted(formData), newId)
      ensures old(store.storage.WellFormed()) ==> store.storage.WellFormed()
    {
      var valid := ValidateForm();
      if !valid {
        return None;
      }
      var data := Submitted(formData);
      if RouteHasId(routeId) {
        store.UpdateRental(ParseInt(routeId.value), RentalDataAsPatch(data));
      } else {
        store.AddRental(data, newId);
      }
      target := Some("/rentals");
    }
  }
}
