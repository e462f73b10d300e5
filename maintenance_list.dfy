/**
 * The maintenance records page: a case-insensitive search over type, the
 * optional description and the assignee, a status filter, and the equipment
 * name shown for each record (the same lookup as on the rental orders page).
 */
module MaintenanceList {
  import opened Wrappers
  import opened JsValues
  import opened Seqs
  import opened Records
  import EquipmentContext
  import MaintenanceContext
  import RentalsList

  /** `type`, `description?` or `assignedTo` contains the search term, all lower-cased. */
  predicate MatchesSearch(r: Maintenance, term: string) {
    || Includes(Lower(r.kind), Lower(term))
    || (r.description.Some? && Includes(Lower(r.description.value), Lower(term)))
    || Includes(Lower(r.assignedTo), Lower(term))
  }

  predicate MatchesStatus(r: Maintenance, status: string) {
    status == "all" || r.status == status
  }

  function Shown(term: string, status: string): Maintenance -> bool {
    (r: Maintenance) => MatchesSearch(r, term) && MatchesStatus(r, status)
  }

  /** `filteredMaintenance`: exactly the records passing both tests, in list order. */
  function FilteredMaintenance(records: seq<Maintenance>, term: string, status: string): (r: seq<Maintenance>)
    ensures forall x :: x in r <==> x in records && MatchesSearch(x, term) && MatchesStatus(x, status)
    ensures Subsequence(r, records)
  {
    FilterIsSubsequence(records, Shown(term, status));
    Filter(records, Shown(term, status))
  }

  /** Each shown record is listed as many times as it is stored; a record failing a test is not listed at all. */
  lemma FilteredMaintenanceMultiset(records: seq<Maintenance>, term: string, status: string)
    ensures forall x :: multiset(FilteredMaintenance(records, term, status))[x] == if MatchesSearch(x, term) && MatchesStatus(x, status) then multiset(records)[x] else 0
  {
    FilterMultiset(records, Shown(term, status));
  }

  /** Status 'all' admits every status: the status test then never removes a record. */
  lemma {:induction false} AllStatusesAdmitted(records: seq<Maintenance>, term: string)
    ensures FilteredMaintenance(records, term, "all") == Filter(records, (r: Maintenance) => MatchesSearch(r, term))
  {
    if records != [] {
      AllStatusesAdmitted(records[1..], term);
    }
  }

  /** An empty search with status 'all' lists every record. */
  lemma {:induction false} NoFilterShowsAll(records: seq<Maintenance>)
    ensures FilteredMaintenance(records, "", "all") == records
  {
    forall i | 0 <= i < |records|
      ensures Shown("", "all")(records[i])
    {
      IncludesEmpty(Lower(records[i].kind));
    }
    FilterKeepsAll(records, Shown("", "all"));
  }

  /** Every seeded record names a seeded item. */
  lemma SeedRecordsNameSeedEquipment()
    ensures forall i :: 0 <= i < |MaintenanceContext.SampleMaintenance| ==>
      RentalsList.EquipmentName(EquipmentContext.SampleEquipment, MaintenanceContext.SampleMaintenance[i].equipmentId)
        != RentalsList.UnknownEquipment
  {
    var items := EquipmentContext.SampleEquipment;
    EquipmentContext.SampleEquipmentIds();
    forall i | 0 <= i < |MaintenanceContext.SampleMaintenance|
      ensures RentalsList.EquipmentName(items, MaintenanceContext.SampleMaintenance[i].equipmentId) != RentalsList.UnknownEquipment
    {
      var k := MaintenanceContext.SampleMaintenance[i].equipmentId.n;
      assert StrictEq(items[k - 1].id, Num(k));
    }
  }
}
