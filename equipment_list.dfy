/**
 * The equipment list page: a case-insensitive search over name and type, a
 * status filter and a category filter (each either 'all' or an exact value),
 * and the category options drawn from the items' types.
 */
module EquipmentList {
  import opened Wrappers
  import opened JsValues
  import opened Seqs
  import opened Records

  /** `name` or `type`, lower-cased, contains the lower-cased search term. */
  predicate MatchesSearch(item: Equipment, term: string) {
    Includes(Lower(item.name), Lower(term)) || Includes(Lower(item.kind), Lower(term))
  }

  predicate MatchesStatus(item: Equipment, status: string) {
    status == "all" || item.status == status
  }

  predicate MatchesCategory(item: Equipment, category: string) {
    category == "all" || item.kind == category
  }

  /** The callback given to `filter`. */
  function Shown(term: string, status: string, category: string): Equipment -> bool {
    (item: Equipment) => MatchesSearch(item, term) && MatchesStatus(item, status) && MatchesCategory(item, category)
  }

  /** `filteredEquipment`: exactly the items passing all three tests, in list order. */
  function FilteredEquipment(equipment: seq<Equipment>, term: string, status: string, category: string): (r: seq<Equipment>)
    ensures forall item :: item in r <==>
      item in equipment && MatchesSearch(item, term) && MatchesStatus(item, status) && MatchesCategory(item, category)
    ensures Subsequence(r, equipment)
  {
    FilterIsSubsequence(equipment, Shown(term, status, category));
    Filter(equipment, Shown(term, status, category))
  }

  /** Each shown item is listed as many times as it is stored; an item failing a test is not listed at all. */
  lemma FilteredEquipmentMultiset(equipment: seq<Equipment>, term: string, status: string, category: string)
    ensures forall x ::
      multiset(FilteredEquipment(equipment, term, status, category))[x] ==
      if MatchesSearch(x, term) && MatchesStatus(x, status) && MatchesCategory(x, category) then multiset(equipment)[x] else 0
  {
    FilterMultiset(equipment, Shown(term, status, category));
  }

  /** An empty search with both filters at 'all' shows every item. */
  lemma {:induction false} NoFilterShowsAll(equipment: seq<Equipment>)
    ensures FilteredEquipment(equipment, "", "all", "all") == equipment
  {
    forall i | 0 <= i < |equipment|
      ensures Shown("", "all", "all")(equipment[i])
    {
      IncludesEmpty(Lower(equipment[i].name));
    }
    FilterKeepsAll(equipment, Shown("", "all", "all"));
  }

  /** The search ignores the case of the term: typing it in capitals finds the same items. */
  lemma SearchIgnoresCase(item: Equipment, term: string)
    ensures MatchesSearch(item, Lower(term)) <==> MatchesSearch(item, term)
  {
    LowerIdempotent(term);
  }

  /** `equipment.map(item => item.type)`. */
  function Kinds(equipment: seq<Equipment>): (r: seq<string>)
    ensures |r| == |equipment| && forall i :: 0 <= i < |equipment| ==> r[i] == equipment[i].kind
  {
    seq(|equipment|, i requires 0 <= i < |equipment| => equipment[i].kind)
  }

  /**
   * `categories`: every type some item has, each once, and only those,
   * ordered by where each type first appears in the list.
   */
  function Categories(equipment: seq<Equipment>): (r: seq<string>)
    ensures forall c :: c in r <==> exists i :: 0 <= i < |equipment| && equipment[i].kind == c
    ensures forall i :: 0 <= i < |r| ==> r[i] in Kinds(equipment)
    ensures forall i, j :: 0 <= i < j < |r| ==> r[i] != r[j]
    ensures forall i, j :: 0 <= i < j < |r| ==> FirstIndex(Kinds(equipment), r[i]) < FirstIndex(Kinds(equipment), r[j])
  {
    var kinds := Kinds(equipment);
    DedupeFirstOccurrenceOrder(kinds);
    var r := Dedupe(kinds);
    assert forall c :: c in kinds ==> exists i :: 0 <= i < |equipment| && equipment[i].kind == c;
    r
  }
}
