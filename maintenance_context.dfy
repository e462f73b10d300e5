/**
 * The maintenance provider: an ordered list of maintenance records held as
 * state, written back whole under the "maintenance" key after every change.
 * The seed records carry no notes.
 */
module MaintenanceContext {
  import opened Wrappers
  import opened JsValues
  import opened Seqs
  import opened Dates
  import opened Records

  /** The three maintenance the provider seeds an empty storage with. */
  const SampleMaintenance: seq<Maintenance> := [
    Maintenance(Num(1), Num(1), "Routine", Some("Regular service and inspection"), FromCivil(2024, 3, 1), "Scheduled", "John Smith", 500, None),
    Maintenance(Num(2), Num(2), "Repair", Some("Hydraulic system maintenance"), FromCivil(2024, 2, 25), "In Progress", "Mike Johnson", 1200, None),
    Maintenance(Num(3), Num(3), "Inspection", Some("Annual safety inspection"), FromCivil(2024, 3, 15), "Scheduled", "Sarah Brown", 300, None)
  ]

  lemma SampleMaintenanceIds()
    ensures |SampleMaintenance| == 3
    ensures forall i :: 0 <= i < |SampleMaintenance| ==> SampleMaintenance[i].id == Num(i + 1)
  {
  }

  function HasId(id: Id): Maintenance -> bool {
    (r: Maintenance) => StrictEq(r.id, id)
  }

  function LacksId(id: Id): Maintenance -> bool {
    (r: Maintenance) => !StrictEq(r.id, id)
  }

  /** The list `addMaintenance` builds: the old records untouched, then the new one. */
  function Added(s: seq<Maintenance>, d: MaintenanceData, id: Id): (r: seq<Maintenance>)
    ensures |r| == |s| + 1 && r[..|s|] == s
    ensures r[|s|].id == id && r[|s|] == MergeMaintenance(r[|s|], MaintenanceDataAsPatch(d))
  {
    s + [NewMaintenance(d, id)]
  }

  /** The list `updateMaintenance` builds: every record with the id gets the patch spread over it. */
  function Updated(s: seq<Maintenance>, id: Id, patch: MaintenancePatch): (r: seq<Maintenance>)
    ensures |r| == |s|
    ensures forall i :: 0 <= i < |s| && StrictEq(s[i].id, id) ==> r[i] == MergeMaintenance(s[i], patch)
    ensures forall i :: 0 <= i < |s| && !StrictEq(s[i].id, id) ==> r[i] == s[i]
  {
    MapWhere(s, HasId(id), (x: Maintenance) => MergeMaintenance(x, patch))
  }

  /** The list `deleteMaintenance` builds. */
  function Deleted(s: seq<Maintenance>, id: Id): (r: seq<Maintenance>)
    ensures |r| <= |s|
    ensures forall i :: 0 <= i < |r| ==> !StrictEq(r[i].id, id) && r[i] in s
    ensures forall i :: 0 <= i < |s| && !StrictEq(s[i].id, id) ==> s[i] in r
  {
    Filter(s, LacksId(id))
  }

  /** After deleting, each record without the id is there as many times as before, and none with it is left. */
  lemma DeletedMultiset(s: seq<Maintenance>, id: Id)
    ensures forall x :: multiset(Deleted(s, id))[x] == if StrictEq(x.id, id) then 0 else multiset(s)[x]
  {
    FilterMultiset(s, LacksId(id));
  }

  lemma DeletedIsOrderedSubsequence(s: seq<Maintenance>, id: Id)
    ensures Subsequence(Deleted(s, id), s)
  {
    FilterIsSubsequence(s, LacksId(id));
  }

  lemma UnknownIdIsNoOp(s: seq<Maintenance>, id: Id, patch: MaintenancePatch)
    requires forall i :: 0 <= i < |s| ==> !StrictEq(s[i].id, id)
    ensures Updated(s, id, patch) == s
    ensures Deleted(s, id) == s
  {
    FilterKeepsAll(s, LacksId(id));
  }

  lemma UpdateIdempotent(s: seq<Maintenance>, id: Id, patch: MaintenancePatch)
    ensures Updated(Updated(s, id, patch), id, patch) == Updated(s, id, patch)
  {
  }

  /** Adding under a fresh id and deleting that id gives back the old list. */
  lemma {:induction false} AddThenDeleteRestores(s: seq<Maintenance>, d: MaintenanceData, id: Id)
    requires forall i :: 0 <= i < |s| ==> !StrictEq(s[i].id, id)
    requires !id.NaN?
    ensures Deleted(Added(s, d, id), id) == s
  {
    FilterAppend(s, [NewMaintenance(d, id)], LacksId(id));
    FilterKeepsAll(s, LacksId(id));
  }

  /** Updating the added record with the data it was added with changes nothing. */
  lemma {:induction false} UpdateWithSameDataAfterAdd(s: seq<Maintenance>, d: MaintenanceData, id: Id)
    ensures Updated(Added(s, d, id), id, MaintenanceDataAsPatch(d))[|s|] == Added(s, d, id)[|s|]
  {
    assert StrictEq(Added(s, d, id)[|s|].id, id) || id.NaN?;
  }

  class MaintenanceProvider {
    var maintenance: seq<Maintenance>
    var loading: bool
    const storage: LocalStorage

    constructor (storage: LocalStorage)
      ensures this.storage == storage && maintenance == [] && loading
    {
      this.storage := storage;
      maintenance := [];
      loading := true;
    }

    ghost predicate Persisted()
      reads this, storage
    {
      MaintenanceKey in storage.items && storage.items[MaintenanceKey] == MaintenanceList(maintenance)
    }

    method Load()
      requires storage.WellFormed()
      modifies this, storage
      ensures !loading && Persisted() && storage.WellFormed()
      ensures MaintenanceKey in old(storage.items) ==>
        maintenance == old(storage.items[MaintenanceKey]).records && storage.items == old(storage.items)
      ensures MaintenanceKey !in old(storage.items) ==>
        maintenance == SampleMaintenance && storage.items == old(storage.items)[MaintenanceKey := MaintenanceList(SampleMaintenance)]
    {
      var stored := storage.GetItem(MaintenanceKey);
      match stored {
        case Some(b) =>
          assert FitsKey(MaintenanceKey, b);
          maintenance := b.records;
        case None =>
          maintenance := SampleMaintenance;
          storage.SetItem(MaintenanceKey, MaintenanceList(SampleMaintenance));
      }
      loading := false;
    }

    method AddMaintenance(d: MaintenanceData, newId: Id)
      modifies this, storage
      ensures maintenance == Added(old(maintenance), d, newId)
      ensures storage.items == old(storage.items)[MaintenanceKey := MaintenanceList(maintenance)]
      ensures loading == old(loading) && Persisted()
      ensures old(storage.WellFormed()) ==> storage.WellFormed()
    {
      maintenance := Added(maintenance, d, newId);
      storage.SetItem(MaintenanceKey, MaintenanceList(maintenance));
    }

    method UpdateMaintenance(id: Id, patch: MaintenancePatch)
      modifies this, storage
      ensures maintenance == Updated(old(maintenance), id, patch)
      ensures storage.items == old(storage.items)[MaintenanceKey := MaintenanceList(maintenance)]
      ensures loading == old(loading) && Persisted()
      ensures old(storage.WellFormed()) ==> storage.WellFormed()
    {
      maintenance := Updated(maintenance, id, patch);
      storage.SetItem(MaintenanceKey, MaintenanceList(maintenance));
    }

    method DeleteMaintenance(id: Id)
      modifies this, storage
      ensures maintenance == Deleted(old(maintenance), id)
      ensures storage.items == old(storage.items)[MaintenanceKey := MaintenanceList(maintenance)]
      ensures loading == old(loading) && Persisted()
      ensures old(storage.WellFormed()) ==> storage.WellFormed()
    {
      maintenance := Deleted(maintenance, id);
      storage.SetItem(MaintenanceKey, MaintenanceList(maintenance));
    }
  }
}
