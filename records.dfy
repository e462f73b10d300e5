/**
 * The records the four providers keep and the browser storage they write
 * them to. Each record is a JavaScript object with a fixed set of keys; an
 * object spread `{...item, ...patch}` is modelled by a patch whose every key
 * is optional (a missing key keeps the item's value).
 */
module Records {
  import opened Wrappers
  import opened JsValues
  import opened Dates

  // ---------------------------------------------------------------------------
  // Equipment

  /** One entry of an item's `rentalHistory`: the detail page's rental inputs plus a new id. */
  datatype RentalEntry = RentalEntry(id: Id, customerName: string, startDate: string, endDate: string, rentalFee: string)

  /** The detail page's `rentalData` state; every value is the raw text of an input. */
  datatype RentalInput = RentalInput(customerName: string, startDate: string, endDate: string, rentalFee: string)

  /**
   * An equipment item. `kind` is the source's `type` key; `status` is a free
   * string set by hand ('Available', 'Rented' or 'Maintenance' in the form);
   * `rentalHistory` is missing on every seed item.
   */
  datatype Equipment = Equipment(
    id: Id, name: string, kind: string, status: string, condition: string,
    lastMaintenance: string, location: string, rentalHistory: Option<seq<RentalEntry>>)

  /** `item => item.status === st`. */
  function HasStatus(st: string): Equipment -> bool {
    (item: Equipment) => item.status == st
  }

  /** The keys an object spread may carry over an equipment item. */
  datatype EquipmentPatch = EquipmentPatch(
    id: Option<Id>, name: Option<string>, kind: Option<string>, status: Option<string>,
    condition: Option<string>, lastMaintenance: Option<string>, location: Option<string>,
    rentalHistory: Option<seq<RentalEntry>>)
  {
    /** The six keys the equipment form always holds. */
    predicate HasFormFields() {
      name.Some? && kind.Some? && status.Some? && condition.Some? && lastMaintenance.Some? && location.Some?
    }

    /** The six form keys, read back from a patch that holds them all. */
    function FormData(): (d: EquipmentData)
      requires HasFormFields()
      ensures EquipmentDataAsPatch(d) == this.(id := None, rentalHistory := None)
    {
      EquipmentData(name.value, kind.value, status.value, condition.value, lastMaintenance.value, location.value)
    }
  }

  /** `{...item, ...patch}`: every key the patch carries wins, every other key keeps the item's value. */
  function MergeEquipment(item: Equipment, patch: EquipmentPatch): (r: Equipment)
  {
    Equipment(
      patch.id.GetOr(item.id), patch.name.GetOr(item.name), patch.kind.GetOr(item.kind),
      patch.status.GetOr(item.status), patch.condition.GetOr(item.condition),
      patch.lastMaintenance.GetOr(item.lastMaintenance), patch.location.GetOr(item.location),
      Or(patch.rentalHistory, item.rentalHistory))
  }

  /** An item seen as an object: all its keys (`rentalHistory` only when the item has it). */
  function EquipmentAsPatch(item: Equipment): (p: EquipmentPatch)
    ensures p.HasFormFields() && p.id == Some(item.id)
  {
    EquipmentPatch(
      Some(item.id), Some(item.name), Some(item.kind), Some(item.status), Some(item.condition),
      Some(item.lastMaintenance), Some(item.location), item.rentalHistory)
  }

  /** The six keys of a new item as the equipment form submits it. */
  datatype EquipmentData = EquipmentData(
    name: string, kind: string, status: string, condition: string, lastMaintenance: string, location: string)

  /** The submitted keys seen as a patch. */
  function EquipmentDataAsPatch(d: EquipmentData): (p: EquipmentPatch)
    ensures p.HasFormFields() && p.id.None? && p.rentalHistory.None?
  {
    EquipmentPatch(None, Some(d.name), Some(d.kind), Some(d.status), Some(d.condition), Some(d.lastMaintenance), Some(d.location), None)
  }

  /** `{...newEquipment, id}`: the submitted keys with the given id, and no history. */
  function NewEquipment(d: EquipmentData, id: Id): (r: Equipment)
    ensures r.id == id && r.rentalHistory.None?
    ensures EquipmentAsPatch(r) == EquipmentDataAsPatch(d).(id := Some(id))
  {
    Equipment(id, d.name, d.kind, d.status, d.condition, d.lastMaintenance, d.location, None)
  }

  /** Updating an item with submitted data replaces exactly the six form keys. */
  lemma MergeEquipmentWithData(item: Equipment, d: EquipmentData)
    ensures MergeEquipment(item, EquipmentDataAsPatch(d)) == NewEquipment(d, item.id).(rentalHistory := item.rentalHistory)
  {
  }

  /** Spreading a patch a second time changes nothing more. */
  lemma MergeEquipmentIdempotent(item: Equipment, patch: EquipmentPatch)
    ensures MergeEquipment(MergeEquipment(item, patch), patch) == MergeEquipment(item, patch)
  {
  }

  /** Spreading a whole item over another yields the spread item, unless the other has a history the first lacks. */
  lemma MergeWholeItem(base: Equipment, item: Equipment)
    ensures MergeEquipment(base, EquipmentAsPatch(item)) == item.(rentalHistory := Or(item.rentalHistory, base.rentalHistory))
  {
  }

  // ---------------------------------------------------------------------------
  // Rentals

  /** A rental. Dates are day numbers; `equipmentId` keeps whatever value its creator stored (number or string). */
  datatype Rental = Rental(
    id: Id, equipmentId: Id, customerName: string, startDate: Day, endDate: Day,
    rentalFee: int, status: string, notes: Option<string>)

  /** What the rental form submits: every form key, the fee already converted to a number. */
  datatype RentalData = RentalData(
    customerName: string, equipmentId: Id, startDate: Day, endDate: Day,
    rentalFee: int, status: string, notes: string)

  datatype RentalPatch = RentalPatch(
    customerName: Option<string>, equipmentId: Option<Id>, startDate: Option<Day>, endDate: Option<Day>,
    rentalFee: Option<int>, status: Option<string>, notes: Option<string>)

  /** `{...rental, ...patch}`; rental patches never carry an id. */
  function MergeRental(r: Rental, p: RentalPatch): Rental
  {
    Rental(
      r.id, p.equipmentId.GetOr(r.equipmentId), p.customerName.GetOr(r.customerName),
      p.startDate.GetOr(r.startDate), p.endDate.GetOr(r.endDate), p.rentalFee.GetOr(r.rentalFee),
      p.status.GetOr(r.status), Or(p.notes, r.notes))
  }

  /** The submitted data seen as a patch: every key present. */
  function RentalDataAsPatch(d: RentalData): RentalPatch
  {
    RentalPatch(
      Some(d.customerName), Some(d.equipmentId), Some(d.startDate), Some(d.endDate),
      Some(d.rentalFee), Some(d.status), Some(d.notes))
  }

  /** `{...newRental, id}`. */
  function NewRental(d: RentalData, id: Id): (r: Rental)
    ensures r.id == id
  {
    Rental(id, d.equipmentId, d.customerName, d.startDate, d.endDate, d.rentalFee, d.status, Some(d.notes))
  }

  /** Updating with the whole submitted data gives the record that adding that data under the same id gives. */
  lemma MergeRentalWithData(r: Rental, d: RentalData)
    ensures MergeRental(r, RentalDataAsPatch(d)) == NewRental(d, r.id)
  {
  }

  lemma MergeRentalIdempotent(r: Rental, p: RentalPatch)
    ensures MergeRental(MergeRental(r, p), p) == MergeRental(r, p)
  {
  }

  // ---------------------------------------------------------------------------
  // Maintenance

  /** A maintenance record; `kind` is the source's `type` key. Seed records have no `notes`. */
  datatype Maintenance = Maintenance(
    id: Id, equipmentId: Id, kind: string, description: Option<string>, scheduledDate: Day,
    status: string, assignedTo: string, cost: int, notes: Option<string>)

  /** What the maintenance form submits, the cost already converted to a number. */
  datatype MaintenanceData = MaintenanceData(
    equipmentId: Id, kind: string, description: string, scheduledDate: Day,
    status: string, assignedTo: string, cost: int, notes: string)

  datatype MaintenancePatch = MaintenancePatch(
    equipmentId: Option<Id>, kind: Option<string>, description: Option<string>, scheduledDate: Option<Day>,
    status: Option<string>, assignedTo: Option<string>, cost: Option<int>, notes: Option<string>)

  function MergeMaintenance(r: Maintenance, p: MaintenancePatch): Maintenance
  {
    Maintenance(
      r.id, p.equipmentId.GetOr(r.equipmentId), p.kind.GetOr(r.kind), Or(p.description, r.description),
      p.scheduledDate.GetOr(r.scheduledDate), p.status.GetOr(r.status), p.assignedTo.GetOr(r.assignedTo),
      p.cost.GetOr(r.cost), Or(p.notes, r.notes))
  }

  function MaintenanceDataAsPatch(d: MaintenanceData): MaintenancePatch
  {
    MaintenancePatch(
      Some(d.equipmentId), Some(d.kind), Some(d.description), Some(d.scheduledDate),
      Some(d.status), Some(d.assignedTo), Some(d.cost), Some(d.notes))
  }

  function NewMaintenance(d: MaintenanceData, id: Id): (r: Maintenance)
    ensures r.id == id
  {
    Maintenance(id, d.equipmentId, d.kind, Some(d.description), d.scheduledDate, d.status, d.assignedTo, d.cost, Some(d.notes))
  }

  lemma MergeMaintenanceWithData(r: Maintenance, d: MaintenanceData)
    ensures MergeMaintenance(r, MaintenanceDataAsPatch(d)) == NewMaintenance(d, r.id)
  {
  }

  lemma MergeMaintenanceIdempotent(r: Maintenance, p: MaintenancePatch)
    ensures MergeMaintenance(MergeMaintenance(r, p), p) == MergeMaintenance(r, p)
  {
  }

  // ---------------------------------------------------------------------------
  // Notifications and the session user

  /** A notification: the provider's defaults (`id`, `timestamp`, `read`) and the caller's `type` and `message`. */
  datatype Notification = Notification(id: Id, timestamp: string, read: bool, kind: string, message: string)

  /** What a caller passes to `addNotification`; it may carry its own `id`, `timestamp` or `read`. */
  datatype NotificationInput = NotificationInput(
    id: Option<Id>, timestamp: Option<string>, read: Option<bool>, kind: string, message: string)

  /** The signed-in user as the session keeps it: no password key. */
  datatype SessionUser = SessionUser(id: int, email: string, role: string, name: string)

  // ---------------------------------------------------------------------------
  // Browser storage

  const EquipmentKey: string := "equipment"
  const RentalsKey: string := "rentals"
  const MaintenanceKey: string := "maintenance"
  const NotificationsKey: string := "notifications"
  const UserKey: string := "user"

  /** A stored value, kept as the list or record it encodes (the JSON text itself is not modelled). */
  datatype Blob =
    | EquipmentList(equipment: seq<Equipment>)
    | RentalList(rentals: seq<Rental>)
    | MaintenanceList(records: seq<Maintenance>)
    | NotificationList(notifications: seq<Notification>)
    | UserRecord(user: SessionUser)

  /** Which kind of value each provider writes under its key. */
  predicate FitsKey(key: string, b: Blob) {
    && (key == EquipmentKey ==> b.EquipmentList?)
    && (key == RentalsKey ==> b.RentalList?)
    && (key == MaintenanceKey ==> b.MaintenanceList?)
    && (key == NotificationsKey ==> b.NotificationList?)
    && (key == UserKey ==> b.UserRecord?)
  }

  /** `window.localStorage`: a synchronous map from key to stored value. */
  class LocalStorage {
    var items: map<string, Blob>

    constructor (initial: map<string, Blob>)
      ensures items == initial
    {
      items := initial;
    }

    /** Every key holds the kind of value its provider writes. */
    ghost predicate WellFormed()
      reads this
    {
      forall k :: k in items ==> FitsKey(k, items[k])
    }

    /** `getItem(key)`: the stored value, or `null`. */
    function GetItem(key: string): (r: Option<Blob>)
      reads this
      ensures r.Some? <==> key in items
      ensures r.Some? ==> r.value == items[key]
    {
      if key in items then Some(items[key]) else None
    }

    /** `setItem(key, value)`. */
    method SetItem(key: string, value: Blob)
      modifies this
      ensures items == old(items)[key := value]
      ensures old(WellFormed()) && FitsKey(key, value) ==> WellFormed()
    {
      items := items[key := value];
    }

    /** `removeItem(key)`. */
    method RemoveItem(key: string)
      modifies this
      ensures items == old(items) - {key}
      ensures old(WellFormed()) ==> WellFormed()
    {
      items := items - {key};
    }
  }
}
