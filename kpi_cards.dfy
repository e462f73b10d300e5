/**
 * The dashboard's four figures: the equipment total, the available and rented
 * counts by stored status, the overdue rentals and the maintenance due within
 * a week. "Now" is an instant; a record's date is compared at its midnight.
 */
module KPICards {
  import opened JsValues
  import opened Seqs
  import opened Dates
  import opened Records

  function TotalEquipment(equipment: seq<Equipment>): (n: nat)
    ensures n == |equipment|
  {
    |equipment|
  }

  /**
   * `equipment.filter(item => item.status === st).length`: the 'Available'
   * and 'Rented' cards are this count at those two statuses.
   */
  function StatusCount(equipment: seq<Equipment>, st: string): (n: nat)
    ensures n <= |equipment|
    ensures n == 0 <==> forall i :: 0 <= i < |equipment| ==> equipment[i].status != st
  {
    Count(equipment, HasStatus(st))
  }

  /** One more item in front adds one to the count of its own status and nothing to any other. */
  lemma StatusCountCons(item: Equipment, equipment: seq<Equipment>, st: string)
    ensures StatusCount([item] + equipment, st) == (if item.status == st then 1 else 0) + StatusCount(equipment, st)
  {
    CountCons(item, equipment, HasStatus(st));
  }

  /** No item is both available and rented, so the two counts never exceed the total. */
  lemma AvailablePlusRentedAtMostTotal(equipment: seq<Equipment>)
    ensures StatusCount(equipment, "Available") + StatusCount(equipment, "Rented") <= TotalEquipment(equipment)
  {
    CountDisjoint(equipment, HasStatus("Available"), HasStatus("Rented"));
  }

  /** `new Date(rental.endDate) < today && rental.status !== 'Completed'`. */
  function IsOverdue(now: Instant): Rental -> bool {
    (r: Rental) => Before(StartOf(r.endDate), now) && r.status != "Completed"
  }

  function OverdueCount(rentals: seq<Rental>, now: Instant): (n: nat)
    ensures n <= |rentals|
    ensures n == 0 <==> forall i :: 0 <= i < |rentals| ==> !IsOverdue(now)(rentals[i])
  {
    Count(rentals, IsOverdue(now))
  }

  /**
   * Overdue by day numbers: the end date is an earlier day, or today once
   * midnight has passed, and the rental is not completed (an active or a
   * cancelled one counts).
   */
  lemma OverdueIff(r: Rental, now: Instant)
    requires ValidInstant(now)
    ensures IsOverdue(now)(r) <==> (r.endDate < now.day || (r.endDate == now.day && now.ms > 0)) && r.status != "Completed"
  {
    StartBeforeIff(r.endDate, now);
  }

  /** A completed rental is never counted, however long ago it ended. */
  lemma CompletedNeverOverdue(rentals: seq<Rental>, now: Instant)
    requires forall i :: 0 <= i < |rentals| ==> rentals[i].status == "Completed"
    ensures OverdueCount(rentals, now) == 0
  {
  }

  /** `nextWeek`: seven days on, at the same time of day. */
  function NextWeek(now: Instant): (t: Instant)
    ensures t.day == now.day + 7 && t.ms == now.ms
  {
    Instant(now.day + 7, now.ms)
  }

  /** `scheduledDate >= today && scheduledDate <= nextWeek && record.status !== 'Completed'`. */
  function IsUpcoming(now: Instant): Maintenance -> bool {
    (m: Maintenance) =>
      && !Before(StartOf(m.scheduledDate), now)
      && !Before(NextWeek(now), StartOf(m.scheduledDate))
      && m.status != "Completed"
  }

  function UpcomingCount(maintenance: seq<Maintenance>, now: Instant): (n: nat)
    ensures n <= |maintenance|
    ensures n == 0 <==> forall i :: 0 <= i < |maintenance| ==> !IsUpcoming(now)(maintenance[i])
  {
    Count(maintenance, IsUpcoming(now))
  }

  /**
   * Upcoming by day numbers: the next seven days, and today itself only at the
   * stroke of midnight; the seventh day on is always included.
   */
  lemma UpcomingIff(m: Maintenance, now: Instant)
    requires ValidInstant(now)
    ensures IsUpcoming(now)(m) <==>
      && (now.day < m.scheduledDate || (m.scheduledDate == now.day && now.ms == 0))
      && m.scheduledDate <= now.day + 7
      && m.status != "Completed"
  {
    StartBeforeIff(m.scheduledDate, now);
  }
}
