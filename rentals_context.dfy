/**
 * The rentals provider: an ordered list of rentals held as state, written back
 * whole under the "rentals" key after every change. Nothing checks dates,
 * overlaps or that the equipment exists.
 */
module RentalsContext {
  import opened Wrappers
  import opened JsValues
  import opened Seqs
  import opened Dates
  import opened Records

  /** The three rentals the provider seeds an empty storage with. */
  const SampleRentals: seq<Rental> := [
    Rental(Num(1), Num(2), "John Smith", FromCivil(2024, 2, 1), FromCivil(2024, 2, 15), 1500, "Active", Some("Site A construction project")),
    Rental(Num(2), Num(4), "Sarah Johnson", FromCivil(2024, 2, 5), FromCivil(2024, 2, 20), 800, "Active", Some("Site B renovation")),
    Rental(Num(3), Num(2), "Mike Brown", FromCivil(2024, 1, 15), FromCivil(2024, 1, 30), 1500, "Completed", Some("Completed successfully"))
  ]

  lemma SampleRentalIds()
    ensures |SampleRentals| == 3
    ensures forall i :: 0 <= i < |SampleRentals| ==> SampleRentals[i].id == Num(i + 1)
  {
  }

  function HasId(id: Id): Rental -> bool {
    (r: Rental) => StrictEq(r.id, id)
  }

  function LacksId(id: Id): Rental -> bool {
    (r: Rental) => !StrictEq(r.id, id)
  }

  /** The list `addRental` builds: the old rentals untouched, then the new one, whatever its dates. */
  function Added(s: seq<Rental>, d: RentalData, id: Id): (r: seq<Rental>)
    ensures |r| == |s| + 1 && r[..|s|] == s
    ensures r[|s|].id == id && r[|s|] == MergeRental(r[|s|], RentalDataAsPatch(d))
  {
    s + [NewRental(d, id)]
  }

  /** The list `updateRental` builds: every rental with the id gets the patch spread over it. */
  function Updated(s: seq<Rental>, id: Id, patch: RentalPatch): (r: seq<Rental>)
    ensures |r| == |s|
    ensures forall i :: 0 <= i < |s| && StrictEq(s[i].id, id) ==> r[i] == MergeRental(s[i], patch)
    ensures forall i :: 0 <= i < |s| && !StrictEq(s[i].id, id) ==> r[i] == s[i]
  {
    MapWhere(s, HasId(id), (x: Rental) => MergeRental(x, patch))
  }

  /** The list `deleteRental` builds. */
  function Deleted(s: seq<Rental>, id: Id): (r: seq<Rental>)
    ensures |r| <= |s|
    ensures forall i :: 0 <= i < |r| ==> !StrictEq(r[i].id, id) && r[i] in s
    ensures forall i :: 0 <= i < |s| && !StrictEq(s[i].id, id) ==> s[i] in r
  {
    Filter(s, LacksId(id))
  }

  /** After deleting, each rental without the id is there as many times as before, and none with it is left. */
  lemma DeletedMultiset(s: seq<Rental>, id: Id)
    ensures forall x :: multiset(Deleted(s, id))[x] == if StrictEq(x.id, id) then 0 else multiset(s)[x]
  {
    FilterMultiset(s, LacksId(id));
  }

  lemma DeletedIsOrderedSubsequence(s: seq<Rental>, id: Id)
    ensures Subsequence(Deleted(s, id), s)
  {
    FilterIsSubsequence(s, LacksId(id));
  }

  lemma UnknownIdIsNoOp(s: seq<Rental>, id: Id, patch: RentalPatch)
    requires forall i :: 0 <= i < |s| ==> !StrictEq(s[i].id, id)
    ensures Updated(s, id, patch) == s
    ensures Deleted(s, id) == s
  {
    FilterKeepsAll(s, LacksId(id));
  }

  lemma UpdateIdempotent(s: seq<Rental>, id: Id, patch: RentalPatch)
    ensures Updated(Updated(s, id, patch), id, patch) == Updated(s, id, patch)
  {
  }

  /** Adding under a fresh id and deleting that id gives back the old list. */
  lemma {:induction false} AddThenDeleteRestores(s: seq<Rental>, d: RentalData, id: Id)
    requires forall i :: 0 <= i < |s| ==> !StrictEq(s[i].id, id)
    requires !id.NaN?
    ensures Deleted(Added(s, d, id), id) == s
  {
    FilterAppend(s, [NewRental(d, id)], LacksId(id));
    FilterKeepsAll(s, LacksId(id));
  }

  /** Updating the added rental with the data it was added with changes nothing. */
  lemma {:induction false} UpdateWithSameDataAfterAdd(s: seq<Rental>, d: RentalData, id: Id)
    ensures Updated(Added(s, d, id), id, RentalDataAsPatch(d))[|s|] == Added(s, d, id)[|s|]
  {
    assert StrictEq(Added(s, d, id)[|s|].id, id) || id.NaN?;
  }

  class RentalsProvider {
    var rentals: seq<Rental>
    var loading: bool
    const storage: LocalStorage

    constructor (storage: LocalStorage)
      ensures this.storage == storage && rentals == [] && loading
    {
      this.storage := storage;
      rentals := [];
      loading := true;
    }

    ghost predicate Persisted()
      reads this, storage
    {
      RentalsKey in storage.items && storage.items[RentalsKey] == RentalList(rentals)
    }

    method Load()
      requires storage.WellFormed()
      modifies this, storage
      ensures !loading && Persisted() && storage.WellFormed()
      ensures RentalsKey in old(storage.items) ==>
        rentals == old(storage.items[RentalsKey]).rentals && storage.items == old(storage.items)
      ensures RentalsKey !in old(storage.items) ==>
        rentals == SampleRentals && storage.items == old(storage.items)[RentalsKey := RentalList(SampleRentals)]
    {
      var stored := storage.GetItem(RentalsKey);
      match stored {
        case Some(b) =>
          assert FitsKey(RentalsKey, b);
          rentals := b.rentals;
        case None =>
          rentals := SampleRentals;
          storage.SetItem(RentalsKey, RentalList(SampleRentals));
      }
      loading := false;
    }

    method AddRental(d: RentalData, newId: Id)
      modifies this, storage
      ensures rentals == Added(old(rentals), d, newId)
      ensures storage.items == old(storage.items)[RentalsKey := RentalList(rentals)]
      ensures loading == old(loading) && Persisted()
      ensures old(storage.WellFormed()) ==> storage.WellFormed()
    {
      rentals := Added(rentals, d, newId);
      storage.SetItem(RentalsKey, RentalList(rentals));
    }

    method UpdateRental(id: Id, patch: RentalPatch)
      modifies this, storage
      ensures rentals == Updated(old(rentals), id, patch)
      ensures storage.items == old(storage.items)[RentalsKey := RentalList(rentals)]
      ensures loading == old(loading) && Persisted()
      ensures old(storage.WellFormed()) ==> storage.WellFormed()
    {
      rentals := Updated(rentals, id, patch);
      storage.SetItem(RentalsKey, RentalList(rentals));
    }

    method DeleteRental(id: Id)
      modifies this, storage
      ensures rentals == Deleted(old(rentals), id)
      ensures storage.items == old(storage.items)[RentalsKey := RentalList(rentals)]
      ensures loading == old(loading) && Persisted()
      ensures old(storage.WellFormed()) ==> storage.WellFormed()
    {
      rentals := Deleted(rentals, id);
      storage.SetItem(RentalsKey, RentalList(rentals));
    }
  }
}
