/**
 * What the three record forms share: the route id that decides between
 * creating and editing, the typed value an input hands to `handleChange`,
 * and the `errors` object with its field-by-field clearing.
 */
module FormState {
  import opened Wrappers
  import opened JsValues
  import opened Dates

  /** `if (id)` on the `:id` route parameter: present and not the empty string. */
  predicate RouteHasId(routeId: Option<string>) {
    routeId.Some? && routeId.value != ""
  }

  /**
   * The value an input delivers, typed the way the model keeps its field:
   * text, the `<select>` value as an id, a date input's day (or none when
   * cleared), or a number input's amount (or none when cleared).
   */
  datatype FormValue = Text(text: string) | IdValue(id: Id) | DateValue(date: Option<Day>) | Amount(amount: Option<int>)

  /** `{ name, value }` of the changed input. */
  datatype Edit = Edit(name: string, value: FormValue)

  /**
   * `if (errors[name]) setErrors({...errors, [name]: ''})`: a non-empty message
   * under the edited key is blanked; no key is added or removed and no other
   * message changes.
   */
  function ClearError(errors: map<string, string>, key: string): (r: map<string, string>)
    ensures r.Keys == errors.Keys
    ensures key in r ==> r[key] == ""
    ensures forall k :: k in r && k != key ==> r[k] == errors[k]
  {
    if key in errors && errors[key] != "" then errors[key := ""] else errors
  }

  /** Clearing twice clears no more than clearing once. */
  lemma ClearErrorIdempotent(errors: map<string, string>, key: string)
    ensures ClearError(ClearError(errors, key), key) == ClearError(errors, key)
  {
  }

  /** `Object.keys(errors).length === 0`. */
  predicate NoErrors(errors: map<string, string>) {
    |errors| == 0
  }

  /** An error map is empty exactly when no key is in it. */
  lemma NoErrorsIff(errors: map<string, string>)
    ensures NoErrors(errors) <==> errors.Keys == {}
  {
    if errors.Keys == {} {
      assert errors == map[];
    } else {
      var k :| k in errors.Keys;
      assert k in errors;
    }
  }
}
