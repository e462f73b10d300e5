/**
 * The equipment detail page: the item found by the route id, its rentals and
 * maintenance records, the quick rental entry that writes into the item's
 * `rentalHistory`, and delete after confirmation.
 */
module EquipmentDetail {
  import opened Wrappers
  import opened JsValues
  import opened Seqs
  import opened Records
  import EquipmentContext

  /** What the page renders: the not-found view, or an item with the history selected for it. */
  datatype Page = NotFound | Found(item: Equipment, rentals: seq<Rental>, maintenance: seq<Maintenance>)

  /** `rental => rental.equipmentId === id`. */
  function RentalFor(id: Id): Rental -> bool {
    (r: Rental) => StrictEq(r.equipmentId, id)
  }

  /** `m => m.equipmentId === id`. */
  function MaintenanceFor(id: Id): Maintenance -> bool {
    (m: Maintenance) => StrictEq(m.equipmentId, id)
  }

  /**
   * The page for route id `routeId`: the first item whose id is `===`
   * `parseInt(routeId)`, and exactly the rentals and records whose equipment id
   * is `===` it, in list order; no item means the not-found view.
   */
  function View(equipment: seq<Equipment>, rentals: seq<Rental>, maintenance: seq<Maintenance>, routeId: string): (p: Page)
    ensures p.NotFound? <==> forall i :: 0 <= i < |equipment| ==> !StrictEq(equipment[i].id, ParseInt(routeId))
    ensures p.Found? ==> StrictEq(p.item.id, ParseInt(routeId))
    ensures p.Found? ==> exists i :: 0 <= i < |equipment| && equipment[i] == p.item && forall j :: 0 <= j < i ==> !StrictEq(equipment[j].id, ParseInt(routeId))
    ensures p.Found? ==> forall r :: r in p.rentals <==> r in rentals && StrictEq(r.equipmentId, ParseInt(routeId))
    ensures p.Found? ==> forall m :: m in p.maintenance <==> m in maintenance && StrictEq(m.equipmentId, ParseInt(routeId))
    ensures p.Found? ==> Subsequence(p.rentals, rentals) && Subsequence(p.maintenance, maintenance)
  {
    var id := ParseInt(routeId);
    match Find(equipment, EquipmentContext.HasId(id))
    case None => NotFound
    case Some(item) =>
      FilterIsSubsequence(rentals, RentalFor(id));
      FilterIsSubsequence(maintenance, MaintenanceFor(id));
      Found(item, Filter(rentals, RentalFor(id)), Filter(maintenance, MaintenanceFor(id)))
  }

  /** A route id without a digit finds nothing, whatever ids the items have. */
  lemma NonNumericRouteNotFound(equipment: seq<Equipment>, rentals: seq<Rental>, maintenance: seq<Maintenance>, routeId: string)
    requires forall i :: 0 <= i < |routeId| ==> !IsDigit(routeId[i])
    ensures View(equipment, rentals, maintenance, routeId).NotFound?
  {
    ParseIntNeedsDigit(routeId);
  }

  /** The route `/equipment/<n>` built from an item's id shows the first item with that id. */
  lemma {:induction false} RouteOfItemFindsIt(equipment: seq<Equipment>, rentals: seq<Rental>, maintenance: seq<Maintenance>, k: nat, n: nat)
    requires k < |equipment| && equipment[k].id == Num(n)
    requires forall j :: 0 <= j < k ==> equipment[j].id != Num(n)
    ensures View(equipment, rentals, maintenance, DecimalString(n)) == Found(equipment[k], Filter(rentals, RentalFor(Num(n))), Filter(maintenance, MaintenanceFor(Num(n))))
  {
    ParseIntDecimal(n);
    FindFirst(equipment, EquipmentContext.HasId(Num(n)), k);
  }

  /**
   * A rental created through the rental form stores the `<select>` text as
   * its equipment id, so it never appears in any item's rentals tab.
   */
  lemma TextEquipmentIdNeverListed(equipment: seq<Equipment>, rentals: seq<Rental>, maintenance: seq<Maintenance>, routeId: string, r: Rental)
    requires r.equipmentId.Str? && View(equipment, rentals, maintenance, routeId).Found?
    ensures r !in View(equipment, rentals, maintenance, routeId).rentals
  {
  }

  /** The quick rental entry: its four inputs start and end empty. */
  const EmptyRentalInput: RentalInput := RentalInput("", "", "", "")

  /** The mounted page for one route id and its local state. */
  class DetailPage {
    const routeId: string
    var showRentalForm: bool
    var rentalData: RentalInput

    constructor (routeId: string)
      ensures this.routeId == routeId && !showRentalForm && rentalData == EmptyRentalInput
    {
      this.routeId := routeId;
      showRentalForm := false;
      rentalData := EmptyRentalInput;
    }

    /**
     * `handleRentalSubmit`, reachable only when the item was found: records the
     * entry on that item's id; when the item has no history the call throws and
     * the form stays as it was, otherwise the form is hidden and cleared.
     */
    method HandleRentalSubmit(store: EquipmentContext.EquipmentProvider, entryId: Id) returns (ok: bool)
      requires Find(store.equipment, EquipmentContext.HasId(ParseInt(routeId))).Some?
      modifies this, store, store.storage
      ensures var item := Find(old(store.equipment), EquipmentContext.HasId(ParseInt(routeId))).value;
        ok <==> EquipmentContext.WithRentalRecord(old(store.equipment), item.id, old(rentalData), entryId).Some?
      ensures var item := Find(old(store.equipment), EquipmentContext.HasId(ParseInt(routeId))).value;
        ok ==> store.equipment == EquipmentContext.WithRentalRecord(old(store.equipment), item.id, old(rentalData), entryId).value
      ensures ok ==> !showRentalForm && rentalData == EmptyRentalInput && store.Persisted()
      ensures ok ==> store.storage.items == old(store.storage.items)[EquipmentKey := EquipmentList(store.equipment)]
      ensures !ok ==> showRentalForm == old(showRentalForm) && rentalData == old(rentalData)
      ensures !ok ==> store.equipment == old(store.equipment) && store.storage.items == old(store.storage.items)
      ensures store.loading == old(store.loading)
      ensures old(store.storage.WellFormed()) ==> store.storage.WellFormed()
    {
      var item := Find(store.equipment, EquipmentContext.HasId(ParseInt(routeId))).value;
      ok := store.AddRentalRecord(item.id, rentalData, entryId);
      if ok {
        showRentalForm := false;
        rentalData := EmptyRentalInput;
      }
    }

    /** `handleDelete`: deletes the parsed route id only when the user confirmed. */
    method HandleDelete(store: EquipmentContext.EquipmentProvider, confirmed: bool)
      modifies store, store.storage
      ensures confirmed ==> store.equipment == EquipmentContext.Deleted(old(store.equipment), ParseInt(routeId)) && store.Persisted()
      ensures confirmed ==> store.storage.items == old(store.storage.items)[EquipmentKey := EquipmentList(store.equipment)]
      ensures !confirmed ==> store.equipment == old(store.equipment) && store.storage.items == old(store.storage.items)
      ensures store.loading == old(store.loading)
      ensures old(store.storage.WellFormed()) ==> store.storage.WellFormed()
    {
      if confirmed {
        store.DeleteEquipment(ParseInt(routeId));
      }
    }
  }
}
