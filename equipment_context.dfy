/**
 * The equipment provider: an ordered list of items held as state, written back
 * whole under the "equipment" key after every change.
 */
module EquipmentContext {
  import opened Wrappers
  import opened JsValues
  import opened Seqs
  import opened Records

  /** The five items the provider seeds an empty storage with; none has a rental history. */
  const SampleEquipment: seq<Equipment> := [
    Equipment(Num(1), "Excavator CAT 320", "Heavy Equipment", "Available", "Good", "2024-02-15", "Main Yard", None),
    Equipment(Num(2), "Bulldozer Komatsu D65", "Heavy Equipment", "Rented", "Good", "2024-02-10", "Site A", None),
    Equipment(Num(3), "Crane Liebherr LTM 1100", "Heavy Equipment", "Available", "Excellent", "2024-02-20", "Main Yard", None),
    Equipment(Num(4), "Concrete Mixer", "Construction Equipment", "Rented", "Good", "2024-02-05", "Site B", None),
    Equipment(Num(5), "Scaffolding Set", "Safety Equipment", "Available", "Good", "2024-02-18", "Warehouse", None)
  ]

  lemma SampleEquipmentIds()
    ensures |SampleEquipment| == 5
    ensures forall i :: 0 <= i < |SampleEquipment| ==> SampleEquipment[i].id == Num(i + 1)
    ensures forall i :: 0 <= i < |SampleEquipment| ==> SampleEquipment[i].rentalHistory.None?
  {
  }

  /** `item => item.id === id`. */
  function HasId(id: Id): Equipment -> bool {
    (item: Equipment) => StrictEq(item.id, id)
  }

  /** `item => item.id !== id`. */
  function LacksId(id: Id): Equipment -> bool {
    (item: Equipment) => !StrictEq(item.id, id)
  }

  /** The list `addEquipment` builds: the old items untouched, then the new one. */
  function Added(s: seq<Equipment>, d: EquipmentData, id: Id): (r: seq<Equipment>)
    ensures |r| == |s| + 1 && r[..|s|] == s
    ensures r[|s|].id == id && EquipmentAsPatch(r[|s|]) == EquipmentDataAsPatch(d).(id := Some(id))
  {
    s + [NewEquipment(d, id)]
  }

  /** The list `updateEquipment` builds: every item with the id gets the patch spread over it. */
  function Updated(s: seq<Equipment>, id: Id, patch: EquipmentPatch): (r: seq<Equipment>)
    ensures |r| == |s|
    ensures forall i :: 0 <= i < |s| && StrictEq(s[i].id, id) ==> r[i] == MergeEquipment(s[i], patch)
    ensures forall i :: 0 <= i < |s| && !StrictEq(s[i].id, id) ==> r[i] == s[i]
  {
    MapWhere(s, HasId(id), item => MergeEquipment(item, patch))
  }

  /** The list `deleteEquipment` builds. */
  function Deleted(s: seq<Equipment>, id: Id): (r: seq<Equipment>)
    ensures |r| <= |s|
    ensures forall i :: 0 <= i < |r| ==> !StrictEq(r[i].id, id) && r[i] in s
    ensures forall i :: 0 <= i < |s| && !StrictEq(s[i].id, id) ==> s[i] in r
  {
    Filter(s, LacksId(id))
  }

  /** After deleting, each item without the id is there as many times as before, and none with it is left. */
  lemma DeletedMultiset(s: seq<Equipment>, id: Id)
    ensures forall x :: multiset(Deleted(s, id))[x] == if StrictEq(x.id, id) then 0 else multiset(s)[x]
  {
    FilterMultiset(s, LacksId(id));
  }

  /** What `addRentalRecord` makes of one matching item: status "Rented" and the entry at the end of its history. */
  function Recorded(item: Equipment, entry: RentalEntry): Equipment {
    match item.rentalHistory
    case Some(h) => item.(status := "Rented", rentalHistory := Some(h + [entry]))
    case None => item
  }

  /** `{...rentalData, id}`. */
  function NewEntry(input: RentalInput, id: Id): (e: RentalEntry)
    ensures e.id == id
  {
    RentalEntry(id, input.customerName, input.startDate, input.endDate, input.rentalFee)
  }

  /**
   * The list `addRentalRecord` builds, or `None` when spreading a missing
   * `rentalHistory` throws: that happens as soon as any matching item lacks one.
   */
  function WithRentalRecord(s: seq<Equipment>, id: Id, input: RentalInput, entryId: Id): (r: Option<seq<Equipment>>)
    ensures r.None? <==> exists i :: 0 <= i < |s| && StrictEq(s[i].id, id) && s[i].rentalHistory.None?
    ensures r.Some? ==> |r.value| == |s|
    ensures r.Some? ==> forall i :: 0 <= i < |s| && !StrictEq(s[i].id, id) ==> r.value[i] == s[i]
    ensures r.Some? ==> forall i :: 0 <= i < |s| && StrictEq(s[i].id, id) ==>
      && r.value[i].status == "Rented"
      && r.value[i].rentalHistory == Some(s[i].rentalHistory.value + [NewEntry(input, entryId)])
      && r.value[i] == s[i].(status := "Rented", rentalHistory := r.value[i].rentalHistory)
  {
    if exists i :: 0 <= i < |s| && StrictEq(s[i].id, id) && s[i].rentalHistory.None? then None
    else Some(MapWhere(s, HasId(id), item => Recorded(item, NewEntry(input, entryId))))
  }

  // ---------------------------------------------------------------------------
  // Properties of the list operations

  /** Deleting keeps the surviving items in their original order. */
  lemma DeletedIsOrderedSubsequence(s: seq<Equipment>, id: Id)
    ensures Subsequence(Deleted(s, id), s)
  {
    FilterIsSubsequence(s, LacksId(id));
  }

  /** Updating or deleting an id no item has leaves the list as it was. */
  lemma UnknownIdIsNoOp(s: seq<Equipment>, id: Id, patch: EquipmentPatch)
    requires forall i :: 0 <= i < |s| ==> !StrictEq(s[i].id, id)
    ensures Updated(s, id, patch) == s
    ensures Deleted(s, id) == s
  {
    FilterKeepsAll(s, LacksId(id));
  }

  /** Updating twice with the same patch is updating once. */
  lemma UpdateIdempotent(s: seq<Equipment>, id: Id, patch: EquipmentPatch)
    ensures Updated(Updated(s, id, patch), id, patch) == Updated(s, id, patch)
  {
  }

  /** Adding under a fresh id and deleting that id gives back the old list. */
  lemma {:induction false} AddThenDeleteRestores(s: seq<Equipment>, d: EquipmentData, id: Id)
    requires forall i :: 0 <= i < |s| ==> !StrictEq(s[i].id, id)
    requires !id.NaN?
    ensures Deleted(Added(s, d, id), id) == s
  {
    FilterAppend(s, [NewEquipment(d, id)], LacksId(id));
    FilterKeepsAll(s, LacksId(id));
  }

  /**
   * Adding performs no uniqueness check: when the id is already taken, the
   * list afterwards holds two items with it and a lookup still finds the old one.
   */
  lemma {:induction false} AddDuplicateIdIsShadowed(s: seq<Equipment>, d: EquipmentData, k: nat)
    requires k < |s| && !s[k].id.NaN?
    ensures Added(s, d, s[k].id)[k].id == Added(s, d, s[k].id)[|s|].id
    ensures Find(Added(s, d, s[k].id), HasId(s[k].id)) == Find(s, HasId(s[k].id))
  {
    FindAppend(s, [NewEquipment(d, s[k].id)], HasId(s[k].id));
    assert HasId(s[k].id)(s[k]);
  }

  /** No item of a freshly seeded store can take a rental record: each lacks a history. */
  lemma SeedCannotRecord(k: int, input: RentalInput, entryId: Id)
    requires 1 <= k <= 5
    ensures WithRentalRecord(SampleEquipment, Num(k), input, entryId).None?
  {
    assert StrictEq(SampleEquipment[k - 1].id, Num(k));
  }

  // ---------------------------------------------------------------------------
  // The provider

  class EquipmentProvider {
    var equipment: seq<Equipment>
    var loading: bool
    const storage: LocalStorage

    /** Initial state before the load effect: an empty list, still loading. */
    constructor (storage: LocalStorage)
      ensures this.storage == storage && equipment == [] && loading
    {
      this.storage := storage;
      equipment := [];
      loading := true;
    }

    /** The stored "equipment" value is the current list. */
    ghost predicate Persisted()
      reads this, storage
    {
      EquipmentKey in storage.items && storage.items[EquipmentKey] == EquipmentList(equipment)
    }

    /** The mount effect: use a stored list as it is, otherwise seed and store the sample items. */
    method Load()
      requires storage.WellFormed()
      modifies this, storage
      ensures !loading && Persisted() && storage.WellFormed()
      ensures EquipmentKey in old(storage.items) ==>
        equipment == old(storage.items[EquipmentKey]).equipment && storage.items == old(storage.items)
      ensures EquipmentKey !in old(storage.items) ==>
        equipment == SampleEquipment && storage.items == old(storage.items)[EquipmentKey := EquipmentList(SampleEquipment)]
    {
      var stored := storage.GetItem(EquipmentKey);
      match stored {
        case Some(b) =>
          assert FitsKey(EquipmentKey, b);
          equipment := b.equipment;
        case None =>
          equipment := SampleEquipment;
          storage.SetItem(EquipmentKey, EquipmentList(SampleEquipment));
      }
      loading := false;
    }

    method AddEquipment(d: EquipmentData, newId: Id)
      modifies this, storage
      ensures equipment == Added(old(equipment), d, newId)
      ensures storage.items == old(storage.items)[EquipmentKey := EquipmentList(equipment)]
      ensures loading == old(loading) && Persisted()
      ensures old(storage.WellFormed()) ==> storage.WellFormed()
    {
      equipment := Added(equipment, d, newId);
      storage.SetItem(EquipmentKey, EquipmentList(equipment));
    }

    method UpdateEquipment(id: Id, patch: EquipmentPatch)
      modifies this, storage
      ensures equipment == Updated(old(equipment), id, patch)
      ensures storage.items == old(storage.items)[EquipmentKey := EquipmentList(equipment)]
      ensures loading == old(loading) && Persisted()
      ensures old(storage.WellFormed()) ==> storage.WellFormed()
    {
      equipment := Updated(equipment, id, patch);
      storage.SetItem(EquipmentKey, EquipmentList(equipment));
    }

    method DeleteEquipment(id: Id)
      modifies this, storage
      ensures equipment == Deleted(old(equipment), id)
      ensures storage.items == old(storage.items)[EquipmentKey := EquipmentList(equipment)]
      ensures loading == old(loading) && Persisted()
      ensures old(storage.WellFormed()) ==> storage.WellFormed()
    {
      equipment := Deleted(equipment, id);
      storage.SetItem(EquipmentKey, EquipmentList(equipment));
    }

    /**
     * `addRentalRecord`. When a matching item has no history the spread throws
     * before anything is set or stored: `ok` is false and nothing changes.
     */
    method AddRentalRecord(id: Id, input: RentalInput, entryId: Id) returns (ok: bool)
      modifies this, storage
      ensures ok <==> WithRentalRecord(old(equipment), id, input, entryId).Some?
      ensures ok ==> equipment == WithRentalRecord(old(equipment), id, input, entryId).value
      ensures ok ==> storage.items == old(storage.items)[EquipmentKey := EquipmentList(equipment)] && Persisted()
      ensures !ok ==> equipment == old(equipment) && storage.items == old(storage.items)
      ensures loading == old(loading)
      ensures old(storage.WellFormed()) ==> storage.WellFormed()
    {
      var r := WithRentalRecord(equipment, id, input, entryId);
      match r {
        case None =>
          ok := false;
        case Some(list) =>
          equipment := list;
          storage.SetItem(EquipmentKey, EquipmentList(equipment));
          ok := true;
      }
    }
  }
}
