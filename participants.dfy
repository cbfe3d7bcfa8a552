/**
 * The first admin view (app/participants/page.jsx): a configurable chain of
 * filters over the loaded registrations, the panel state that switches
 * filters on and off, and the rows of the spreadsheet export.
 */
module Participants {
  import opened Wrappers
  import opened Text
  import opened Sequences
  import opened Records

  /** The entries of the "Add Filter" select. */
  datatype FilterKey =
    | Search | Gender | LifeStatus | Parish | TravelWithUs | PaymentMethod | DobRange | RegDate

  /**
   * A pair of date inputs; an input left empty is `None`. A chosen day is
   * what `new Date` makes of the input's value: for the birth-date range a
   * day number, for the registration-date range the millisecond instant of
   * that day's midnight UTC, compared with the creation instant.
   */
  datatype DateRange = DateRange(from: Option<int>, to: Option<int>)

  /** The `filters` state object: one value per filter key. */
  datatype FilterValues = FilterValues(
    search: string,
    gender: string,
    lifeStatus: string,
    parish: string,
    travelWithUs: string,
    paymentMethod: string,
    dobRange: DateRange,
    regDate: DateRange
  )

  /** What `filters[key]` holds: a text value, or a date range for the two range keys. */
  datatype FilterValue = Term(text: string) | Range(range: DateRange)

  const NoDates := DateRange(None, None)

  /** The initial `filters` state: every value empty. */
  const InitialValues := FilterValues("", "", "", "", "", "", NoDates, NoDates)

  predicate IsRangeKey(k: FilterKey) {
    k == DobRange || k == RegDate
  }

  /** `filters[k]`. */
  function Get(v: FilterValues, k: FilterKey): FilterValue {
    match k
    case Search => Term(v.search)
    case Gender => Term(v.gender)
    case LifeStatus => Term(v.lifeStatus)
    case Parish => Term(v.parish)
    case TravelWithUs => Term(v.travelWithUs)
    case PaymentMethod => Term(v.paymentMethod)
    case DobRange => Range(v.dobRange)
    case RegDate => Range(v.regDate)
  }

  /** The value a cancelled filter is given back. */
  function Cleared(k: FilterKey): FilterValue {
    if IsRangeKey(k) then Range(NoDates) else Term("")
  }

  /** `{ ...prev, [k]: cleared }`: clears the value of `k` and of no other key. */
  function Reset(v: FilterValues, k: FilterKey): (r: FilterValues)
    ensures Get(r, k) == Cleared(k)
    ensures forall j :: j != k ==> Get(r, j) == Get(v, j)
  {
    match k
    case Search => v.(search := "")
    case Gender => v.(gender := "")
    case LifeStatus => v.(lifeStatus := "")
    case Parish => v.(parish := "")
    case TravelWithUs => v.(travelWithUs := "")
    case PaymentMethod => v.(paymentMethod := "")
    case DobRange => v.(dobRange := NoDates)
    case RegDate => v.(regDate := NoDates)
  }

  predicate BothSet(rg: DateRange) {
    rg.from.Some? && rg.to.Some?
  }

  /** `from <= d && d <= to`, both bounds inclusive. */
  predicate InRange(d: int, rg: DateRange) {
    BothSet(rg) && rg.from.value <= d <= rg.to.value
  }

  /**
   * The value half of a filter's guard: a text value must be non-empty and a
   * range needs both dates. The search filter's guard has no such half.
   */
  predicate HasValue(k: FilterKey, v: FilterValues) {
    match k
    case Search => true
    case Gender => v.gender != ""
    case LifeStatus => v.lifeStatus != ""
    case Parish => v.parish != ""
    case TravelWithUs => v.travelWithUs != ""
    case PaymentMethod => v.paymentMethod != ""
    case DobRange => BothSet(v.dobRange)
    case RegDate => BothSet(v.regDate)
  }

  /** The keys whose `if` guard holds: listed in `activeFilters` and holding a value. */
  function EngagedKeys(active: seq<FilterKey>, v: FilterValues): set<FilterKey> {
    set k | k in active && HasValue(k, v)
  }

  /** The predicate each filter step hands to `Array.prototype.filter`. */
  predicate Passes(k: FilterKey, v: FilterValues, r: Registration) {
    match k
    case Search =>
      IncludesIgnoringCase(r.fullName, v.search) || IncludesIgnoringCase(r.emailAddress, v.search)
    case Gender => r.gender == v.gender
    case LifeStatus => r.lifeStatus == v.lifeStatus
    case Parish => IncludesIgnoringCase(r.parishName, v.parish)
    case TravelWithUs => r.travelWithUs == Some(v.travelWithUs)
    case PaymentMethod => r.paymentMethod == v.paymentMethod
    case DobRange => InRange(r.dateOfBirth, v.dobRange)
    case RegDate => InRange(r.createdAt, v.regDate)
  }

  predicate PassesAll(conds: set<FilterKey>, v: FilterValues, r: Registration) {
    forall k :: k in conds ==> Passes(k, v, r)
  }

  /** `s.filter(...)` with the predicates of every key in `conds`, in list order. */
  function Keep(s: seq<Registration>, conds: set<FilterKey>, v: FilterValues): seq<Registration> {
    if s == [] then []
    else (if PassesAll(conds, v, s[0]) then [s[0]] else []) + Keep(s[1..], conds, v)
  }

  /** The list the page shows and exports for a given filter configuration. */
  function Select(s: seq<Registration>, active: seq<FilterKey>, v: FilterValues): seq<Registration> {
    Keep(s, EngagedKeys(active, v), v)
  }

  /** The filter table, one rule per key, spelled out. */
  ghost predicate SatisfiesActiveFilters(active: seq<FilterKey>, v: FilterValues, r: Registration) {
    && (Search in active ==>
          IncludesIgnoringCase(r.fullName, v.search) || IncludesIgnoringCase(r.emailAddress, v.search))
    && (Gender in active && v.gender != "" ==> r.gender == v.gender)
    && (LifeStatus in active && v.lifeStatus != "" ==> r.lifeStatus == v.lifeStatus)
    && (Parish in active && v.parish != "" ==> IncludesIgnoringCase(r.parishName, v.parish))
    && (TravelWithUs in active && v.travelWithUs != "" ==> r.travelWithUs == Some(v.travelWithUs))
    && (PaymentMethod in active && v.paymentMethod != "" ==> r.paymentMethod == v.paymentMethod)
    && (DobRange in active && BothSet(v.dobRange) ==>
          v.dobRange.from.value <= r.dateOfBirth <= v.dobRange.to.value)
    && (RegDate in active && BothSet(v.regDate) ==>
          v.regDate.from.value <= r.createdAt <= v.regDate.to.value)
  }

  /**
   * The render-time filter chain: `filteredData` starts as the loaded list and
   * each filter whose guard holds replaces it by its filtered copy.
   */
  method ApplyFilters(registrations: seq<Registration>, activeFilters: seq<FilterKey>, filters: FilterValues)
    returns (filteredData: seq<Registration>)
    ensures filteredData == Select(registrations, activeFilters, filters)
  {
    filteredData := registrations;
    ghost var applied: set<FilterKey> := {};
    KeepNoConditions(registrations, filters);
    filteredData, applied := FilterStep(filteredData, Search, activeFilters, filters, registrations, applied);
    filteredData, applied := FilterStep(filteredData, Gender, activeFilters, filters, registrations, applied);
    filteredData, applied := FilterStep(filteredData, LifeStatus, activeFilters, filters, registrations, applied);
    filteredData, applied := FilterStep(filteredData, Parish, activeFilters, filters, registrations, applied);
    filteredData, applied := FilterStep(filteredData, TravelWithUs, activeFilters, filters, registrations, applied);
    filteredData, applied := FilterStep(filteredData, PaymentMethod, activeFilters, filters, registrations, applied);
    filteredData, applied := FilterStep(filteredData, DobRange, activeFilters, filters, registrations, applied);
    filteredData, applied := FilterStep(filteredData, RegDate, activeFilters, filters, registrations, applied);
    ChainCoversEngagedKeys(activeFilters, filters);
  }

  /**
   * One `if` of the chain: when `k` is in `activeFilters` and its guard holds,
   * `filteredData` is replaced by the records passing `k`'s predicate.
   * `applied` records, for the proof, which predicates have been applied.
   */
  method FilterStep(data: seq<Registration>, k: FilterKey, activeFilters: seq<FilterKey>, filters: FilterValues,
                    ghost registrations: seq<Registration>, ghost applied: set<FilterKey>)
    returns (data': seq<Registration>, ghost applied': set<FilterKey>)
    requires data == Keep(registrations, applied, filters)
    ensures data' == Keep(registrations, applied', filters)
    ensures applied' == Include(applied, k, activeFilters, filters)
  {
    data', applied' := data, applied;
    if k in activeFilters && HasValue(k, filters) {
      KeepCompose(registrations, applied, {k}, filters);
      data', applied' := Keep(data, {k}, filters), applied + {k};
    }
  }

  /** `acc`, plus `k` when the guard of `k` holds. */
  function Include(acc: set<FilterKey>, k: FilterKey, active: seq<FilterKey>, v: FilterValues): set<FilterKey> {
    if k in active && HasValue(k, v) then acc + {k} else acc
  }

  /** The chain tests every key once, so the predicates it applies are those of the engaged keys. */
  lemma ChainCoversEngagedKeys(active: seq<FilterKey>, v: FilterValues)
    ensures EngagedKeys(active, v) ==
      Include(Include(Include(Include(Include(Include(Include(Include(
        {}, Search, active, v), Gender, active, v), LifeStatus, active, v), Parish, active, v),
        TravelWithUs, active, v), PaymentMethod, active, v), DobRange, active, v), RegDate, active, v)
  {
    var chain :=
      Include(Include(Include(Include(Include(Include(Include(Include(
        {}, Search, active, v), Gender, active, v), LifeStatus, active, v), Parish, active, v),
        TravelWithUs, active, v), PaymentMethod, active, v), DobRange, active, v), RegDate, active, v);
    forall k ensures k in EngagedKeys(active, v) <==> k in chain {
      EngagedKeysMembers(active, v, k);
      IncludeMembers(active, v, k);
    }
  }

  /** A key is in the chain's result exactly when its own guard holds. */
  lemma IncludeMembers(active: seq<FilterKey>, v: FilterValues, k: FilterKey)
    ensures k in Include(Include(Include(Include(Include(Include(Include(Include(
        {}, Search, active, v), Gender, active, v), LifeStatus, active, v), Parish, active, v),
        TravelWithUs, active, v), PaymentMethod, active, v), DobRange, active, v), RegDate, active, v)
      <==> k in active && HasValue(k, v)
  {
    match k
    case Search =>
    case Gender =>
    case LifeStatus =>
    case Parish =>
    case TravelWithUs =>
    case PaymentMethod =>
    case DobRange =>
    case RegDate =>
  }

  lemma EngagedKeysMembers(active: seq<FilterKey>, v: FilterValues, k: FilterKey)
    ensures k in EngagedKeys(active, v) <==> k in active && HasValue(k, v)
  {
  }

  // ---- Properties of one filter step ----

  lemma {:induction false} KeepNoConditions(s: seq<Registration>, v: FilterValues)
    ensures Keep(s, {}, v) == s
  {
    if s != [] {
      KeepNoConditions(s[1..], v);
      assert [s[0]] + s[1..] == s;
    }
  }

  lemma {:induction false} KeepMembers(s: seq<Registration>, conds: set<FilterKey>, v: FilterValues)
    ensures forall r :: r in Keep(s, conds, v) <==> r in s && PassesAll(conds, v, r)
    ensures forall r :: multiset(Keep(s, conds, v))[r] == if PassesAll(conds, v, r) then multiset(s)[r] else 0
  {
    if s != [] {
      KeepMembers(s[1..], conds, v);
      assert forall r :: r in s <==> r == s[0] || r in s[1..];
      assert s == [s[0]] + s[1..];
    }
  }

  lemma {:induction false} KeepSubseq(s: seq<Registration>, conds: set<FilterKey>, v: FilterValues)
    ensures IsSubseq(Keep(s, conds, v), s)
  {
    if s != [] {
      var rest := Keep(s[1..], conds, v);
      KeepSubseq(s[1..], conds, v);
      if PassesAll(conds, v, s[0]) {
        assert Keep(s, conds, v) == [s[0]] + rest;
        assert ([s[0]] + rest)[1..] == rest;
      } else {
        assert Keep(s, conds, v) == rest;
        SubseqCons(rest, s[0], s[1..]);
        assert [s[0]] + s[1..] == s;
      }
    }
  }

  /** Filtering by `a` and then by `b` is filtering by both at once. */
  lemma {:induction false} KeepCompose(s: seq<Registration>, a: set<FilterKey>, b: set<FilterKey>, v: FilterValues)
    ensures Keep(Keep(s, a, v), b, v) == Keep(s, a + b, v)
  {
    if s != [] {
      KeepCompose(s[1..], a, b, v);
      var x := s[0];
      assert PassesAll(a + b, v, x) <==> PassesAll(a, v, x) && PassesAll(b, v, x);
      var k1 := Keep(s[1..], a, v);
      if PassesAll(a, v, x) {
        assert Keep(s, a, v) == [x] + k1;
        assert ([x] + k1)[0] == x && ([x] + k1)[1..] == k1;
      } else {
        assert Keep(s, a, v) == k1;
      }
    }
  }

  /** A step whose predicate every record satisfies changes nothing. */
  lemma {:induction false} KeepAllPass(s: seq<Registration>, conds: set<FilterKey>, v: FilterValues)
    requires forall r :: r in s ==> PassesAll(conds, v, r)
    ensures Keep(s, conds, v) == s
  {
    if s != [] {
      KeepAllPass(s[1..], conds, v);
      assert [s[0]] + s[1..] == s;
    }
  }

  /** A step whose predicate no record satisfies leaves nothing. */
  lemma {:induction false} KeepNonePass(s: seq<Registration>, conds: set<FilterKey>, v: FilterValues)
    requires forall r :: r in s ==> !PassesAll(conds, v, r)
    ensures Keep(s, conds, v) == []
  {
    if s != [] {
      KeepNonePass(s[1..], conds, v);
    }
  }

  // ---- Properties of the whole chain ----

  /** The visible list is the loaded list with some records left out, in the same order. */
  lemma SelectIsSubsequence(s: seq<Registration>, active: seq<FilterKey>, v: FilterValues)
    ensures IsSubseq(Select(s, active, v), s)
    ensures |Select(s, active, v)| <= |s|
  {
    KeepSubseq(s, EngagedKeys(active, v), v);
    SubseqElements(Select(s, active, v), s);
  }

  /** With no filter added the page shows the loaded list unchanged. */
  lemma SelectWithoutFilters(s: seq<Registration>, v: FilterValues)
    ensures Select(s, [], v) == s
  {
    assert EngagedKeys([], v) == {};
    KeepNoConditions(s, v);
  }

  /** Adding one more filter key never brings a record back: the list only narrows. */
  lemma SelectNarrows(s: seq<Registration>, active: seq<FilterKey>, k: FilterKey, v: FilterValues)
    ensures IsSubseq(Select(s, active + [k], v), Select(s, active, v))
  {
    var before := EngagedKeys(active, v);
    var after := EngagedKeys(active + [k], v);
    assert before <= after;
    assert before + after == after;
    KeepCompose(s, before, after, v);
    KeepSubseq(Keep(s, before, v), after, v);
  }

  /** A record is shown exactly when it is loaded and meets every rule of the filter table. */
  lemma SelectMembership(s: seq<Registration>, active: seq<FilterKey>, v: FilterValues, r: Registration)
    ensures r in Select(s, active, v) <==> r in s && SatisfiesActiveFilters(active, v, r)
  {
    KeepMembers(s, EngagedKeys(active, v), v);
    PassesEngagedIff(active, v, r);
  }

  lemma PassesEngagedIff(active: seq<FilterKey>, v: FilterValues, r: Registration)
    ensures PassesAll(EngagedKeys(active, v), v, r) <==> SatisfiesActiveFilters(active, v, r)
  {
    var e := EngagedKeys(active, v);
    if PassesAll(e, v, r) {
      forall k | k in active && HasValue(k, v) ensures Passes(k, v, r) {
        EngagedKeysMembers(active, v, k);
      }
    }
    if SatisfiesActiveFilters(active, v, r) {
      forall k | k in e ensures Passes(k, v, r) {
        EngagedKeysMembers(active, v, k);
      }
    }
  }

  /** The search filter runs even with an empty term, and then keeps every record. */
  lemma EmptySearchKeepsAll(s: seq<Registration>, v: FilterValues)
    requires v.search == ""
    ensures Search in EngagedKeys([Search], v)
    ensures Select(s, [Search], v) == s
  {
    assert EngagedKeys([Search], v) == {Search};
    forall r | r in s ensures PassesAll({Search}, v, r) {
      assert Lower(v.search) == "";
      IncludesEmpty(Lower(r.fullName));
    }
    KeepAllPass(s, {Search}, v);
  }

  /** A filter other than search whose value is empty is as good as not added. */
  lemma UnsetFilterHasNoEffect(s: seq<Registration>, active: seq<FilterKey>, k: FilterKey, v: FilterValues)
    requires !HasValue(k, v)
    ensures Select(s, active, v) == Select(s, Without(active, k), v)
  {
    WithoutMembers(active, k);
    assert EngagedKeys(active, v) == EngagedKeys(Without(active, k), v);
  }

  /**
   * The schema declares no `travelWithUs`, so once the travel filter holds a
   * value no stored record passes it.
   */
  lemma TravelFilterEmptiesStoredList(s: seq<Registration>, active: seq<FilterKey>, v: FilterValues)
    requires TravelWithUs in active && v.travelWithUs != ""
    requires forall r :: r in s ==> SchemaConforming(r)
    ensures Select(s, active, v) == []
  {
    EngagedKeysMembers(active, v, TravelWithUs);
    KeepNonePass(s, EngagedKeys(active, v), v);
  }

  /** Number of records of the given gender. */
  function CountGender(s: seq<Registration>, g: string): nat {
    if s == [] then 0 else (if s[0].gender == g then 1 else 0) + CountGender(s[1..], g)
  }

  /**
   * The export writes one row per record of `filteredData`; with only the
   * gender filter set, that is one row per record of that gender.
   */
  lemma {:induction false} GenderExportRowCount(s: seq<Registration>, v: FilterValues)
    requires v.gender != ""
    ensures |SheetRows(Select(s, [Gender], v))| == CountGender(s, v.gender)
  {
    assert EngagedKeys([Gender], v) == {Gender};
    if s != [] {
      GenderExportRowCount(s[1..], v);
    }
  }

  /** `XLSX.utils.json_to_sheet(filteredData)`: one sheet row per record, in list order. */
  function SheetRows(filteredData: seq<Registration>): (rows: seq<Registration>)
    ensures |rows| == |filteredData|
  {
    filteredData
  }

  // ---- The filter panel ----

  /** `activeFilters.filter((f) => f !== key)`. */
  function Without(s: seq<FilterKey>, key: FilterKey): seq<FilterKey> {
    if s == [] then []
    else if s[0] == key then Without(s[1..], key)
    else [s[0]] + Without(s[1..], key)
  }

  lemma {:induction false} WithoutMembers(s: seq<FilterKey>, key: FilterKey)
    ensures forall k :: k in Without(s, key) <==> k in s && k != key
    ensures |Without(s, key)| <= |s|
  {
    if s != [] {
      WithoutMembers(s[1..], key);
      assert forall k :: k in s <==> k == s[0] || k in s[1..];
    }
  }

  /** In a list without repetitions, removing a key that is present shortens it by one. */
  lemma {:induction false} WithoutDistinctLength(s: seq<FilterKey>, key: FilterKey)
    requires Distinct(s)
    ensures |Without(s, key)| == if key in s then |s| - 1 else |s|
  {
    if s != [] {
      WithoutDistinctLength(s[1..], key);
      if s[0] == key {
        assert key !in s[1..];
      } else {
        assert key in s <==> key in s[1..];
      }
    }
  }

  lemma {:induction false} WithoutKeepsDistinct(s: seq<FilterKey>, key: FilterKey)
    requires Distinct(s)
    ensures Distinct(Without(s, key))
  {
    if s != [] {
      WithoutKeepsDistinct(s[1..], key);
      WithoutMembers(s[1..], key);
      assert s[0] !in s[1..];
    }
  }

  /** Removing a key that was just added to a list without it gives the list back. */
  lemma {:induction false} AddThenRemove(s: seq<FilterKey>, key: FilterKey)
    requires key !in s
    ensures Without(s + [key], key) == s
  {
    if s == [] {
      assert [] + [key] == [key];
    } else {
      assert (s + [key])[1..] == s[1..] + [key];
      AddThenRemove(s[1..], key);
      assert [s[0]] + s[1..] == s;
    }
  }

  /** No key occurs twice. */
  predicate Distinct(s: seq<FilterKey>) {
    forall i, j :: 0 <= i < j < |s| ==> s[i] != s[j]
  }

  // ---- The registration-date range ----

  /** One day, in milliseconds. */
  const MsPerDay := 86400000

  /**
   * The registration-date filter as written compares the creation instant
   * with the bounds, and a date input's value parses as midnight UTC of that
   * day. A record created one millisecond after midnight of the `to` day is
   * therefore filtered out, although it was created on one of the chosen days.
   */
  lemma RegDateDropsLastDay(s: seq<Registration>, active: seq<FilterKey>, v: FilterValues, r: Registration)
    requires RegDate in active && BothSet(v.regDate)
    requires v.regDate.from.value <= v.regDate.to.value
    requires r in s && r.createdAt == v.regDate.to.value + 1
    ensures r !in Select(s, active, v)
    ensures CreatedWithinDays(r.createdAt, v.regDate)
  {
    SelectMembership(s, active, v, r);
  }

  /** The evidently intended test: created on the `from` day, the `to` day, or a day between. */
  predicate CreatedWithinDays(createdAt: int, rg: DateRange) {
    BothSet(rg) && rg.from.value <= createdAt < rg.to.value + MsPerDay
  }

  /**
   * With both bounds at midnight, the intended test keeps exactly the
   * records whose UTC day lies between the two chosen days, both included.
   */
  lemma CreatedWithinDaysByDay(createdAt: int, fromDay: int, toDay: int)
    ensures CreatedWithinDays(createdAt, DateRange(Some(fromDay * MsPerDay), Some(toDay * MsPerDay)))
        <==> fromDay <= createdAt / MsPerDay <= toDay
  {
    var d := createdAt / MsPerDay;
    assert d * MsPerDay <= createdAt < d * MsPerDay + MsPerDay;
    if fromDay <= d { assert fromDay * MsPerDay <= d * MsPerDay; }
    if d < fromDay { assert d * MsPerDay + MsPerDay <= fromDay * MsPerDay; }
    if d <= toDay { assert d * MsPerDay <= toDay * MsPerDay; }
    if toDay < d { assert toDay * MsPerDay + MsPerDay <= d * MsPerDay; }
  }

  /** The page's filter state: the `activeFilters` list and the `filters` object. */
  class FilterPanel {
    var activeFilters: seq<FilterKey>
    var filters: FilterValues

    ghost predicate Valid()
      reads this
    {
      Distinct(activeFilters)
    }

    constructor ()
      ensures Valid()
      ensures activeFilters == [] && filters == InitialValues
    {
      activeFilters := [];
      filters := InitialValues;
    }

    /**
     * The "Add Filter" select changed to `choice` (`None` for its empty
     * placeholder option): a new key is appended, anything else is ignored.
     */
    method AddFilter(choice: Option<FilterKey>)
      requires Valid()
      modifies this
      ensures Valid()
      ensures filters == old(filters)
      ensures choice.Some? && choice.value !in old(activeFilters) ==>
                activeFilters == old(activeFilters) + [choice.value]
      ensures choice.None? || choice.value in old(activeFilters) ==>
                activeFilters == old(activeFilters)
    {
      if choice.Some? && choice.value !in activeFilters {
        activeFilters := activeFilters + [choice.value];
      }
    }

    /** The "Cancel" button of `key`: drops the key and clears its value. */
    method RemoveFilter(key: FilterKey)
      requires Valid()
      modifies this
      ensures Valid()
      ensures key !in activeFilters
      ensures forall k :: k != key ==> (k in activeFilters <==> k in old(activeFilters))
      ensures activeFilters == Without(old(activeFilters), key)
      ensures |activeFilters| == if key in old(activeFilters) then |old(activeFilters)| - 1 else |old(activeFilters)|
      ensures Get(filters, key) == Cleared(key)
      ensures forall k :: k != key ==> Get(filters, k) == Get(old(filters), k)
    {
      WithoutKeepsDistinct(activeFilters, key);
      WithoutDistinctLength(activeFilters, key);
      WithoutMembers(activeFilters, key);
      activeFilters := Without(activeFilters, key);
      filters := Reset(filters, key);
    }
  }
}
