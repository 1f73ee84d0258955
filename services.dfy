/**
 * Choosing a service: the service-type selector's options and labels, and
 * the default "upcoming" service among the plans fetched for one type.
 */
module Services {
  import opened Strings

  /** One entry of the `service_types` response: its `id` and `attributes.name`. */
  datatype ServiceType = ServiceType(id: string, name: string)

  /** The ids of the service types, in response order: the selector's options. */
  function ServiceTypeIds(types: seq<ServiceType>): (ids: seq<string>)
    ensures |ids| == |types|
    ensures forall i :: 0 <= i < |types| ==> ids[i] == types[i].id
  {
    if types == [] then [] else [types[0].id] + ServiceTypeIds(types[1..])
  }

  /**
   * The id-to-name dictionary, built in response order so that a later
   * entry with a repeated id overwrites an earlier one.
   */
  function ServiceTypeNames(types: seq<ServiceType>): (names: map<string, string>)
    ensures names.Keys == set i | 0 <= i < |types| :: types[i].id
  {
    if types == [] then map[]
    else
      var last := types[|types| - 1];
      ServiceTypeNames(types[..|types| - 1])[last.id := last.name]
  }

  /** An id that no later entry repeats is named after its own entry. */
  lemma {:induction false} ServiceTypeNamesLastWins(types: seq<ServiceType>, i: nat)
    requires i < |types|
    requires forall j :: i < j < |types| ==> types[j].id != types[i].id
    ensures ServiceTypeNames(types)[types[i].id] == types[i].name
  {
    if i < |types| - 1 {
      var earlier := types[..|types| - 1];
      assert earlier[i] == types[i];
      ServiceTypeNamesLastWins(earlier, i);
    }
  }

  /** Every option of the service-type selector has a display name. */
  lemma EveryIdHasName(types: seq<ServiceType>)
    ensures forall id :: id in ServiceTypeIds(types) ==> id in ServiceTypeNames(types)
  {
    var ids, names := ServiceTypeIds(types), ServiceTypeNames(types);
    forall id | id in ids
      ensures id in names
    {
      var i :| 0 <= i < |ids| && ids[i] == id;
      assert types[i].id == id;
    }
  }

  /**
   * The index of the first plan, from `from` on, whose sort date is
   * `>= today`; `|sortDates|` when there is none.
   */
  function FirstUpcomingFrom(sortDates: seq<string>, today: string, from: nat): (k: nat)
    requires from <= |sortDates|
    ensures from <= k <= |sortDates|
    ensures k < |sortDates| ==> StrAtLeast(sortDates[k], today)
    ensures forall j :: from <= j < k ==> StrLess(sortDates[j], today)
    decreases |sortDates| - from
  {
    if from == |sortDates| then from
    else if StrAtLeast(sortDates[from], today) then from
    else FirstUpcomingFrom(sortDates, today, from + 1)
  }

  /**
   * The default service index: the first plan whose sort date is `>=`
   * today's ISO date string, or 0 when no plan qualifies.
   */
  function UpcomingIndex(sortDates: seq<string>, today: string): (r: nat)
    ensures (exists i :: 0 <= i < |sortDates| && StrAtLeast(sortDates[i], today)) ==>
              r < |sortDates| && StrAtLeast(sortDates[r], today) &&
              forall j :: 0 <= j < r ==> StrLess(sortDates[j], today)
    ensures (forall i :: 0 <= i < |sortDates| ==> StrLess(sortDates[i], today)) ==> r == 0
  {
    var k := FirstUpcomingFrom(sortDates, today, 0);
    if k < |sortDates| then k else 0
  }

  /** The plans come back ordered by sort date. */
  predicate SortedByDate(sortDates: seq<string>)
  {
    forall i, j :: 0 <= i < j < |sortDates| ==> StrAtLeast(sortDates[j], sortDates[i])
  }

  /**
   * On a date-ordered list with some upcoming plan, the default index splits
   * it: every plan before it is past, every plan from it on is upcoming.
   */
  lemma UpcomingIndexSplitsSorted(sortDates: seq<string>, today: string)
    requires SortedByDate(sortDates)
    requires exists i :: 0 <= i < |sortDates| && StrAtLeast(sortDates[i], today)
    ensures forall j :: 0 <= j < |sortDates| ==>
              (StrAtLeast(sortDates[j], today) <==> UpcomingIndex(sortDates, today) <= j)
  {
    var r := UpcomingIndex(sortDates, today);
    forall j | r <= j < |sortDates|
      ensures StrAtLeast(sortDates[j], today)
    {
      if r < j {
        StrAtLeastTransitive(sortDates[j], sortDates[r], today);
      }
    }
  }

  /**
   * With today 2026-10-15, plans dated ten and two days ago, today and five
   * days ahead default to today's plan.
   */
  lemma UpcomingIndexPicksToday()
    ensures UpcomingIndex(["2026-10-05", "2026-10-13", "2026-10-15", "2026-10-20"], "2026-10-15") == 2
  {
    var dates := ["2026-10-05", "2026-10-13", "2026-10-15", "2026-10-20"];
    StrLessAt(dates[0], "2026-10-15", 8);
    StrLessAt(dates[1], "2026-10-15", 9);
    StrLessIrreflexive(dates[2]);
    assert FirstUpcomingFrom(dates, "2026-10-15", 2) == 2;
  }

  /** With today 2026-10-15, plans all in the past default to index 0. */
  lemma UpcomingIndexAllPast()
    ensures UpcomingIndex(["2026-10-01", "2026-10-08"], "2026-10-15") == 0
  {
    var dates := ["2026-10-01", "2026-10-08"];
    StrLessAt(dates[0], "2026-10-15", 8);
    StrLessAt(dates[1], "2026-10-15", 8);
  }
}
