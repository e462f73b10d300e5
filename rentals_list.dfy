/**
 * The rental orders page: a case-insensitive search over the customer name
 * and the optional notes, a status filter, and the equipment name shown for
 * each rental.
 */
module RentalsList {
  import opened Wrappers
  import opened JsValues
  import opened Seqs
  import opened Records
  import EquipmentContext
  import RentalsContext

  /**
   * `customerName` or `notes?` contains the search term, both lower-cased; a
   * rental without notes is matched on its customer name alone.
   */
  predicate MatchesSearch(r: Rental, term: string) {
    || Includes(Lower(r.customerName), Lower(term))
    || (r.notes.Some? && Includes(Lower(r.notes.value), Lower(term)))
  }

  predicate MatchesStatus(r: Rental, status: string) {
    status == "all" || r.status == status
  }

  function Shown(term: string, status: string): Rental -> bool {
    (r: Rental) => MatchesSearch(r, term) && MatchesStatus(r, status)
  }

  /** `filteredRentals`: exactly the rentals passing both tests, in list order. */
  function FilteredRentals(rentals: seq<Rental>, term: string, status: string): (r: seq<Rental>)
    ensures forall x :: x in r <==> x in rentals && MatchesSearch(x, term) && MatchesStatus(x, status)
    ensures Subsequence(r, rentals)
  {
    FilterIsSubsequence(rentals, Shown(term, status));
    Filter(rentals, Shown(term, status))
  }

  /** Each shown rental is listed as many times as it is stored; a rental failing a test is not listed at all. */
  lemma FilteredRentalsMultiset(rentals: seq<Rental>, term: string, status: string)
    ensures forall x :: multiset(FilteredRentals(rentals, term, status))[x] == if MatchesSearch(x, term) && MatchesStatus(x, status) then multiset(rentals)[x] else 0
  {
    FilterMultiset(rentals, Shown(term, status));
  }

  /** Status 'all' admits every status: the status test then never removes a rental. */
  lemma {:induction false} AllStatusesAdmitted(rentals: seq<Rental>, term: string)
    ensures FilteredRentals(rentals, term, "all") == Filter(rentals, (r: Rental) => MatchesSearch(r, term))
  {
    if rentals != [] {
      AllStatusesAdmitted(rentals[1..], term);
    }
  }

  /** An empty search with status 'all' lists every rental. */
  lemma {:induction false} NoFilterShowsAll(rentals: seq<Rental>)
    ensures FilteredRentals(rentals, "", "all") == rentals
  {
    forall i | 0 <= i < |rentals|
      ensures Shown("", "all")(rentals[i])
    {
      IncludesEmpty(Lower(rentals[i].customerName));
    }
    FilterKeepsAll(rentals, Shown("", "all"));
  }

  /** A search inside the notes finds the rental; a rental without notes is never found through them. */
  lemma NotesSearch(r: Rental, term: string)
    ensures r.notes.Some? && Includes(Lower(r.notes.value), Lower(term)) ==> MatchesSearch(r, term)
    ensures r.notes.None? ==> (MatchesSearch(r, term) <==> Includes(Lower(r.customerName), Lower(term)))
  {
  }

  const UnknownEquipment: string := "Unknown Equipment"

  /**
   * `getEquipmentName`: the name of the first item whose id is `===` the
   * given one, or 'Unknown Equipment' when none is.
   */
  function EquipmentName(equipment: seq<Equipment>, equipmentId: Id): (name: string)
    ensures (forall i :: 0 <= i < |equipment| ==> !StrictEq(equipment[i].id, equipmentId)) ==> name == UnknownEquipment
    ensures forall i ::
      (0 <= i < |equipment| && StrictEq(equipment[i].id, equipmentId) && forall j :: 0 <= j < i ==> !StrictEq(equipment[j].id, equipmentId))
      ==> name == equipment[i].name
  {
    match Find(equipment, EquipmentContext.HasId(equipmentId))
    case Some(item) => item.name
    case None => UnknownEquipment
  }

  /**
   * A rental saved from the form keeps the `<select>` text as its equipment
   * id; against items with numeric ids, which the seed and `Date.now()` give,
   * its equipment shows as unknown.
   */
  lemma TextEquipmentIdIsUnknown(equipment: seq<Equipment>, s: string)
    requires forall i :: 0 <= i < |equipment| ==> equipment[i].id.Num?
    ensures EquipmentName(equipment, Str(s)) == UnknownEquipment
  {
  }

  /** Every seeded rental names a seeded item. */
  lemma SeedRentalsNameSeedEquipment()
    ensures forall i :: 0 <= i < |RentalsContext.SampleRentals| ==>
      EquipmentName(EquipmentContext.SampleEquipment, RentalsContext.SampleRentals[i].equipmentId) != UnknownEquipment
  {
    var items := EquipmentContext.SampleEquipment;
    EquipmentContext.SampleEquipmentIds();
    forall i | 0 <= i < |RentalsContext.SampleRentals|
      ensures EquipmentName(items, RentalsContext.SampleRentals[i].equipmentId) != UnknownEquipment
    {
      var k := RentalsContext.SampleRentals[i].equipmentId.n;
      assert StrictEq(items[k - 1].id, Num(k));
    }
  }
}
