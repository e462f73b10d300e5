/**
 * The rentals table of the rentals page: three text filters (status,
 * customer, equipment) where an empty filter is inactive, and a badge colour
 * per status. The table reads `customer` and `equipment` keys, which the
 * provider's rentals do not have (they carry `customerName` and
 * `equipmentId`); the model keeps those keys optional so that both the
 * general filter and what it does on the provider's records can be stated.
 */
module RentalList {
  import opened Wrappers
  import opened JsValues
  import opened Seqs
  import opened Records

  /** The `filters` state. */
  datatype Filters = Filters(status: string, customer: string, equipment: string)

  /** The initial filters: all three empty. */
  const NoFilters: Filters := Filters("", "", "")

  const FilterKeys: set<string> := {"status", "customer", "equipment"}

  /** The keys of a listed record the filter reads; a missing `customer` or `equipment` is `None`. */
  datatype Row = Row(status: string, customer: Option<string>, equipment: Option<string>)

  /** A provider rental as this table sees it: a status, and neither a `customer` nor an `equipment` key. */
  function RowOf(r: Rental): Row {
    Row(r.status, None, None)
  }

  function Rows(rentals: seq<Rental>): (rows: seq<Row>)
    ensures |rows| == |rentals| && forall i :: 0 <= i < |rentals| ==> rows[i] == RowOf(rentals[i])
  {
    seq(|rentals|, i requires 0 <= i < |rentals| => RowOf(rentals[i]))
  }

  /**
   * The filter callback on one row, its three tests joined by short-circuit
   * `&&`: `Some(b)` for its verdict, `None` when a non-empty customer or
   * equipment filter calls `toLowerCase` on a missing key, which throws.
   */
  function Passes(row: Row, f: Filters): Option<bool> {
    if f.status != "" && row.status != f.status then Some(false)
    else if f.customer != "" && row.customer.None? then None
    else if f.customer != "" && !Includes(Lower(row.customer.value), Lower(f.customer)) then Some(false)
    else if f.equipment != "" && row.equipment.None? then None
    else Some(f.equipment == "" || Includes(Lower(row.equipment.value), Lower(f.equipment)))
  }

  /** On a row holding both keys: each non-empty filter must match, status exactly and the others as lower-cased substrings. */
  lemma PassesOnCompleteRow(row: Row, f: Filters)
    requires row.customer.Some? && row.equipment.Some?
    ensures Passes(row, f) == Some(
      && (f.status == "" || row.status == f.status)
      && (f.customer == "" || Includes(Lower(row.customer.value), Lower(f.customer)))
      && (f.equipment == "" || Includes(Lower(row.equipment.value), Lower(f.equipment))))
  {
  }

  /** The callback's verdict as a predicate for `Filter`. */
  function Kept(f: Filters): Row -> bool {
    (row: Row) => Passes(row, f) == Some(true)
  }

  /** `rentals.filter(...)`: the kept rows in order, or `None` when the callback throws on some row. */
  function FilteredRows(rows: seq<Row>, f: Filters): (r: Option<seq<Row>>)
    ensures r.None? <==> exists i :: 0 <= i < |rows| && Passes(rows[i], f).None?
    ensures r.Some? ==> r.value == Filter(rows, Kept(f))
  {
    if rows == [] then Some([])
    else
      var rest := FilteredRows(rows[1..], f);
      assert forall i :: 1 <= i < |rows| ==> rows[i] == rows[1..][i - 1];
      match Passes(rows[0], f)
      case None => None
      case Some(b) =>
        match rest
        case None => None
        case Some(tail) => Some(if b then [rows[0]] + tail else tail)
  }

  /** With every filter empty nothing throws and every row is listed. */
  lemma {:induction false} NoFiltersListAll(rows: seq<Row>)
    ensures FilteredRows(rows, NoFilters) == Some(rows)
  {
    FilterKeepsAll(rows, Kept(NoFilters));
  }

  /**
   * On the provider's rentals, a non-empty customer or equipment filter
   * throws as soon as one rental gets past the status test.
   */
  lemma ProviderRentalsThrow(rentals: seq<Rental>, f: Filters, k: nat)
    requires f.customer != "" || f.equipment != ""
    requires k < |rentals| && (f.status == "" || rentals[k].status == f.status)
    ensures FilteredRows(Rows(rentals), f).None?
  {
    assert Passes(Rows(rentals)[k], f).None?;
  }

  /** `filters[name]` for one of the three inputs. */
  function FilterValue(f: Filters, name: string): (v: Option<string>)
    ensures v.Some? <==> name in FilterKeys
  {
    if name == "status" then Some(f.status)
    else if name == "customer" then Some(f.customer)
    else if name == "equipment" then Some(f.equipment)
    else None
  }

  /** `{...prev, [name]: value}`: the named filter takes the value and the other two keep theirs. */
  function SetFilter(f: Filters, name: string, value: string): (r: Filters)
    requires name in FilterKeys
    ensures FilterValue(r, name) == Some(value)
    ensures forall n :: n != name ==> FilterValue(r, n) == FilterValue(f, n)
  {
    if name == "status" then f.(status := value)
    else if name == "customer" then f.(customer := value)
    else f.(equipment := value)
  }

  /** Two filter states agreeing on the three keys are the same state. */
  lemma {:induction false} FilterValuesDetermine(a: Filters, b: Filters)
    requires forall n :: n in FilterKeys ==> FilterValue(a, n) == FilterValue(b, n)
    ensures a == b
  {
    assert FilterValue(a, "status") == FilterValue(b, "status");
    assert FilterValue(a, "customer") == FilterValue(b, "customer");
    assert FilterValue(a, "equipment") == FilterValue(b, "equipment");
  }

  /** `getStatusColor`: yellow, blue and green for Reserved, Rented and Returned, gray for any other status. */
  function StatusColor(status: string): (c: string)
    ensures c == "bg-yellow-500" <==> status == "Reserved"
    ensures c == "bg-blue-500" <==> status == "Rented"
    ensures c == "bg-green-500" <==> status == "Returned"
    ensures c == "bg-gray-500" <==> status != "Reserved" && status != "Rented" && status != "Returned"
  {
    if status == "Reserved" then "bg-yellow-500"
    else if status == "Rented" then "bg-blue-500"
    else if status == "Returned" then "bg-green-500"
    else "bg-gray-500"
  }

  /** The statuses the rental form offers, 'Active', 'Completed' and 'Cancelled', all render gray. */
  lemma FormStatusesAreGray()
    ensures StatusColor("Active") == StatusColor("Completed") == StatusColor("Cancelled") == "bg-gray-500"
  {
  }

  /** The table's filter state. */
  class View {
    var filters: Filters

    constructor ()
      ensures filters == NoFilters
    {
      filters := NoFilters;
    }

    /** `handleFilterChange`: replaces the named filter only. */
    method HandleFilterChange(name: string, value: string)
      requires name in FilterKeys
      modifies this
      ensures filters == SetFilter(old(filters), name, value)
    {
      filters := SetFilter(filters, name, value);
    }
  }
}
