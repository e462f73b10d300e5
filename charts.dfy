/**
 * The dashboard charts' data: the status distribution of the equipment and the
 * number of rentals starting in each of the last six months.
 */
module Charts {
  import opened Wrappers
  import opened Seqs
  import opened Dates
  import opened Records

  // ---------------------------------------------------------------------------
  // Status distribution

  datatype UsageEntry = UsageEntry(caption: string, value: nat, color: string)

  /** `equipmentUsage`: one entry per status the form offers, counting items by stored status. */
  function EquipmentUsage(equipment: seq<Equipment>): (r: seq<UsageEntry>)
    ensures |r| == 3
    ensures r[0].caption == "Available" && r[1].caption == "Rented" && r[2].caption == "Maintenance"
    ensures r[0].color == "#10B981" && r[1].color == "#3B82F6" && r[2].color == "#F59E0B"
    ensures forall j :: 0 <= j < 3 ==> r[j].value == Count(equipment, HasStatus(r[j].caption))
  {
    var available := Count(equipment, HasStatus("Available"));
    var rented := Count(equipment, HasStatus("Rented"));
    var maintenance := Count(equipment, HasStatus("Maintenance"));
    [ UsageEntry("Available", available, "#10B981"),
      UsageEntry("Rented", rented, "#3B82F6"),
      UsageEntry("Maintenance", maintenance, "#F59E0B") ]
  }

  /** The three slices never add up to more than the number of items. */
  lemma UsageAtMostTotal(equipment: seq<Equipment>)
    ensures EquipmentUsage(equipment)[0].value + EquipmentUsage(equipment)[1].value + EquipmentUsage(equipment)[2].value <= |equipment|
  {
    var a, b, c := HasStatus("Available"), HasStatus("Rented"), HasStatus("Maintenance");
    CountDisjoint(equipment, a, b);
    CountDisjoint(equipment, Either(a, b), c);
  }

  // ---------------------------------------------------------------------------
  // Month labels

  const ShortMonthNames: seq<string> := ["Jan", "Feb", "Mar", "Apr", "May", "Jun", "Jul", "Aug", "Sep", "Oct", "Nov", "Dec"]

  /** `toLocaleString('default', {month: 'short'})` in the English locale. */
  function ShortMonthName(m: int): (s: string)
    requires IsMonth(m)
    ensures |s| == 3
  {
    ShortMonthNames[m - 1]
  }

  /** The month `new Date(label + ' 1, ' + year)` reads a month label as; `None` for a text that names no month. */
  function LabelMonth(text: string): (r: Option<int>)
    ensures r.Some? ==> IsMonth(r.value) && ShortMonthName(r.value) == text
  {
    if text in ShortMonthNames then
      var i :| 0 <= i < |ShortMonthNames| && ShortMonthNames[i] == text;
      Some(i + 1)
    else None
  }

  /** Reading a label back gives the month it names. */
  lemma LabelMonthRoundTrip(m: int)
    requires IsMonth(m)
    ensures LabelMonth(ShortMonthName(m)) == Some(m)
  {
    assert ShortMonthNames[m - 1] in ShortMonthNames;
  }

  // ---------------------------------------------------------------------------
  // The last six months

  /** Month number (since January of year 0) of the `j`-th of the six months ending with `(year, month)`. */
  function SixMonthIndex(year: int, month: int, j: int): int {
    MonthIndex(year, month) - 5 + j
  }

  /** The labels `getLastSixMonths` produces for a current month: oldest first, ending with that month. */
  function SixMonthLabels(year: int, month: int): (r: seq<string>)
    ensures |r| == 6
    ensures IsMonth(month) ==> r[5] == ShortMonthName(month)
  {
    seq(6, j requires 0 <= j < 6 => ShortMonthName(MonthOfIndex(SixMonthIndex(year, month, j))))
  }

  /** The six months wrap into the previous year exactly for the first `6 - month` of them. */
  lemma SixMonthsWrap(year: int, month: int, j: int)
    requires IsMonth(month) && 0 <= j < 6
    ensures month - 5 + j >= 1 ==>
      YearOfIndex(SixMonthIndex(year, month, j)) == year && MonthOfIndex(SixMonthIndex(year, month, j)) == month - 5 + j
    ensures month - 5 + j < 1 ==>
      YearOfIndex(SixMonthIndex(year, month, j)) == year - 1 && MonthOfIndex(SixMonthIndex(year, month, j)) == month - 5 + j + 12
  {
  }

  /** `getLastSixMonths`, with the current year and month (1-based) passed in. */
  method GetLastSixMonths(year: int, month: int) returns (months: seq<string>)
    ensures months == SixMonthLabels(year, month)
  {
    months := [];
    var i := 5;
    while i >= 0
      invariant -1 <= i <= 5
      invariant months == SixMonthLabels(year, month)[..5 - i]
    {
      months := months + [ShortMonthName(MonthOfIndex(MonthIndex(year, month) - i))];
      i := i - 1;
    }
  }

  // ---------------------------------------------------------------------------
  // Rental trends

  datatype Bucket = Bucket(caption: string, value: nat)

  /** The rental starts on one of the days of month `m` of year `y` (first and last day included). */
  function StartsIn(y: int, m: int): Rental -> bool
    requires IsMonth(m)
  {
    (r: Rental) => FromCivil(y, m, 1) <= r.startDate <= FromCivil(y, m, DaysInMonth(y, m))
  }

  /**
   * One bucket as written: the label's month is always placed in `year`, the
   * current year. A text that names no month gives an invalid date, and
   * every comparison with it is false.
   */
  function BucketAsWritten(text: string, rentals: seq<Rental>, year: int): (b: Bucket)
    ensures b.caption == text
  {
    match LabelMonth(text)
    case None => Bucket(text, 0)
    case Some(m) => Bucket(text, Count(rentals, StartsIn(year, m)))
  }

  /** `rentalTrends` as written: one bucket per text, in text order, every month looked up in the current year. */
  function RentalTrendsAsWritten(labels: seq<string>, rentals: seq<Rental>, year: int): (r: seq<Bucket>)
    ensures |r| == |labels|
    ensures forall j :: 0 <= j < |labels| ==> r[j].caption == labels[j]
    ensures forall j :: 0 <= j < |labels| && LabelMonth(labels[j]).Some? ==>
      r[j].value == Count(rentals, StartsIn(year, LabelMonth(labels[j]).value))
  {
    seq(|labels|, j requires 0 <= j < |labels| => BucketAsWritten(labels[j], rentals, year))
  }

  /**
   * `rentalTrends` as intended: the same labels, each bucket counting the
   * rentals that start in that text's own month and year.
   */
  function RentalTrends(rentals: seq<Rental>, year: int, month: int): (r: seq<Bucket>)
    ensures |r| == 6
    ensures forall j :: 0 <= j < 6 ==> r[j].caption == SixMonthLabels(year, month)[j]
    ensures forall j :: 0 <= j < 6 ==>
      r[j].value == Count(rentals, StartsIn(YearOfIndex(SixMonthIndex(year, month, j)), MonthOfIndex(SixMonthIndex(year, month, j))))
  {
    seq(6, j requires 0 <= j < 6 =>
      var k := SixMonthIndex(year, month, j);
      Bucket(ShortMonthName(MonthOfIndex(k)), Count(rentals, StartsIn(YearOfIndex(k), MonthOfIndex(k)))))
  }

  /** From June on, all six months lie in the current year and the code as written gives the intended buckets. */
  lemma {:induction false} TrendsAgreeFromJune(rentals: seq<Rental>, year: int, month: int)
    requires 6 <= month <= 12
    ensures RentalTrendsAsWritten(SixMonthLabels(year, month), rentals, year) == RentalTrends(rentals, year, month)
  {
    var labels := SixMonthLabels(year, month);
    forall j | 0 <= j < 6
      ensures RentalTrendsAsWritten(labels, rentals, year)[j] == RentalTrends(rentals, year, month)[j]
    {
      SixMonthsWrap(year, month, j);
      LabelMonthRoundTrip(MonthOfIndex(SixMonthIndex(year, month, j)));
    }
  }

  /**
   * In March 2024 a rental starting on 10 December 2023 falls in the "Dec"
   * bucket as intended, but the code as written looks up December 2024 and
   * counts nothing.
   */
  lemma PreviousYearMonthMissed()
    ensures var rentals := [Rental(JsValues.Num(1), JsValues.Num(1), "A", FromCivil(2023, 12, 10), FromCivil(2023, 12, 20), 100, "Active", None)];
      && SixMonthLabels(2024, 3)[2] == "Dec"
      && RentalTrendsAsWritten(SixMonthLabels(2024, 3), rentals, 2024)[2].value == 0
      && RentalTrends(rentals, 2024, 3)[2].value == 1
  {
    var rentals := [Rental(JsValues.Num(1), JsValues.Num(1), "A", FromCivil(2023, 12, 10), FromCivil(2023, 12, 20), 100, "Active", None)];
    assert SixMonthIndex(2024, 3, 2) == MonthIndex(2023, 12);
    LabelMonthRoundTrip(12);
    assert !StartsIn(2024, 12)(rentals[0]);
    assert StartsIn(2023, 12)(rentals[0]);
  }
}
