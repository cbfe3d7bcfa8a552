/**
 * The second admin view (app/parts/page.jsx): a three-way filter, a
 * comparator sort driven by clickable column headers, the spreadsheet row
 * projection, and the fifteen-minute admin session kept in local storage.
 */
module Parts {
  import opened Wrappers
  import opened Text
  import opened Sequences
  import opened Records

  // ---- Filtering ----

  /** The test `filteredMembers` applies: name search, gender select, payment select. */
  predicate MatchesMember(m: Registration, search: string, gender: string, payment: string) {
    && IncludesIgnoringCase(m.fullName, search)
    && (gender == "all" || m.gender == gender)
    && (payment == "all" || m.paymentMethod == payment)
  }

  /** `participants.filter(...)`. */
  function FilterMembers(participants: seq<Registration>, search: string, gender: string, payment: string)
    : seq<Registration>
  {
    if participants == [] then []
    else
      (if MatchesMember(participants[0], search, gender, payment) then [participants[0]] else [])
      + FilterMembers(participants[1..], search, gender, payment)
  }

  /**
   * The filter keeps, in their order, exactly the participants whose name
   * contains the search term ignoring case and whose gender and payment
   * method agree with the selects, where "all" agrees with anything.
   */
  lemma {:induction false} FilterMembersSpec(participants: seq<Registration>, search: string, gender: string, payment: string)
    ensures IsSubseq(FilterMembers(participants, search, gender, payment), participants)
    ensures forall m :: m in FilterMembers(participants, search, gender, payment) <==>
      && m in participants
      && Includes(Lower(m.fullName), Lower(search))
      && (gender == "all" || m.gender == gender)
      && (payment == "all" || m.paymentMethod == payment)
  {
    if participants != [] {
      var p := participants;
      var rest := FilterMembers(p[1..], search, gender, payment);
      FilterMembersSpec(p[1..], search, gender, payment);
      assert forall m :: m in p <==> m == p[0] || m in p[1..];
      if MatchesMember(p[0], search, gender, payment) {
        assert ([p[0]] + rest)[1..] == rest;
      } else {
        assert FilterMembers(p, search, gender, payment) == rest;
        SubseqCons(rest, p[0], p[1..]);
        assert [p[0]] + p[1..] == p;
      }
    }
  }

  /** A listed participant appears as many times as in the loaded list; the others not at all. */
  lemma {:induction false} FilterMembersCounts(participants: seq<Registration>, search: string, gender: string, payment: string)
    ensures forall m :: multiset(FilterMembers(participants, search, gender, payment))[m] ==
                        if MatchesMember(m, search, gender, payment) then multiset(participants)[m] else 0
  {
    if participants != [] {
      var p := participants;
      FilterMembersCounts(p[1..], search, gender, payment);
      assert p == [p[0]] + p[1..];
    }
  }

  /** With the initial state (empty search, both selects on "all") every participant is listed. */
  lemma {:induction false} InitialFiltersKeepAll(participants: seq<Registration>)
    ensures FilterMembers(participants, "", "all", "all") == participants
  {
    if participants != [] {
      IncludesEmpty(Lower(participants[0].fullName));
      InitialFiltersKeepAll(participants[1..]);
      assert [participants[0]] + participants[1..] == participants;
    }
  }

  // ---- Sorting ----

  datatype Direction = Asc | Desc

  /** `sortConfig`: the clicked header key (`null` before any click) and the direction. */
  datatype SortConfig = SortConfig(key: Option<string>, direction: Direction)

  const InitialSort := SortConfig(None, Asc)

  /** A property value as JavaScript sees it: absent, a string or a number. */
  datatype JsValue = Undefined | Str(s: string) | Num(n: int)

  /** `r[name]`. Every name that is not a property of the record reads as `undefined`. */
  function FieldOf(r: Registration, name: string): JsValue {
    match name
    case "_id" => Str(r.id)
    case "fullName" => Str(r.fullName)
    case "gender" => Str(r.gender)
    case "lifeStatus" => Str(r.lifeStatus)
    case "dateOfBirth" => Num(r.dateOfBirth)
    case "whatsappNumber" => Str(r.whatsappNumber)
    case "emergencyContact" => Str(r.emergencyContact)
    case "emailAddress" => Str(r.emailAddress)
    case "address" => Optional(r.address)
    case "parishName" => Str(r.parishName)
    case "paymentMethod" => Str(r.paymentMethod)
    case "prayerIntention" => Optional(r.prayerIntention)
    case "paymentProof" => Optional(r.paymentProof)
    case "comment" => Optional(r.comment)
    case "createdAt" => Num(r.createdAt)
    case "travelWithUs" => Optional(r.travelWithUs)
    case _ => Undefined
  }

  function Optional(o: Option<string>): JsValue {
    if o.Some? then Str(o.value) else Undefined
  }

  /** `x < y`: strings compare by characters, numbers numerically, and any comparison involving `undefined` is false. */
  predicate JsLess(x: JsValue, y: JsValue) {
    match (x, y)
    case (Str(a), Str(b)) => LexLess(a, b)
    case (Num(a), Num(b)) => a < b
    case _ => false
  }

  /** 0 for `undefined`, 1 for strings, 2 for numbers. */
  function KindOf(x: JsValue): nat {
    match x
    case Undefined => 0
    case Str(_) => 1
    case Num(_) => 2
  }

  /** The value the comparator reads from a record: `r[sortConfig.key]`. */
  function SortValue(cfg: SortConfig, r: Registration): JsValue {
    if cfg.key.None? || cfg.key.value == "" then Undefined else FieldOf(r, cfg.key.value)
  }

  /** The comparator handed to `Array.prototype.sort`. */
  function Compare(cfg: SortConfig, a: Registration, b: Registration): int {
    if cfg.key.None? || cfg.key.value == "" then 0
    else
      var x, y := SortValue(cfg, a), SortValue(cfg, b);
      if JsLess(x, y) then (if cfg.direction == Asc then -1 else 1)
      else if JsLess(y, x) then (if cfg.direction == Asc then 1 else -1)
      else 0
  }

  /** Places `x` before the first element it does not come after. */
  function Insert(cfg: SortConfig, x: Registration, t: seq<Registration>): seq<Registration> {
    if t == [] then [x]
    else if Compare(cfg, x, t[0]) <= 0 then [x] + t
    else [t[0]] + Insert(cfg, x, t[1..])
  }

  /** A stable sort by the comparator, as `Array.prototype.sort` is required to be. */
  function SortBy(cfg: SortConfig, s: seq<Registration>): seq<Registration> {
    if s == [] then [] else Insert(cfg, s[0], SortBy(cfg, s[1..]))
  }

  /** `filteredMembers`: the filtered participants, sorted by the current configuration. */
  function FilteredMembers(participants: seq<Registration>, search: string, gender: string, payment: string,
                           cfg: SortConfig): seq<Registration>
  {
    SortBy(cfg, FilterMembers(participants, search, gender, payment))
  }

  /** No element comes after a later one. */
  ghost predicate Sorted(cfg: SortConfig, t: seq<Registration>) {
    forall i, j :: 0 <= i < j < |t| ==> Compare(cfg, t[i], t[j]) <= 0
  }

  /** Every record yields a value of the same kind for the sort key. */
  ghost predicate UniformKind(cfg: SortConfig, s: seq<Registration>, kind: nat) {
    forall r :: r in s ==> KindOf(SortValue(cfg, r)) == kind
  }

  lemma {:induction false} InsertPermutation(cfg: SortConfig, x: Registration, t: seq<Registration>)
    ensures multiset(Insert(cfg, x, t)) == multiset([x] + t)
  {
    if t != [] && Compare(cfg, x, t[0]) > 0 {
      InsertPermutation(cfg, x, t[1..]);
      assert t == [t[0]] + t[1..];
    }
  }

  /** The sorted list is a rearrangement of the input. */
  lemma {:induction false} SortPermutation(cfg: SortConfig, s: seq<Registration>)
    ensures multiset(SortBy(cfg, s)) == multiset(s)
    ensures |SortBy(cfg, s)| == |s|
  {
    if s != [] {
      SortPermutation(cfg, s[1..]);
      InsertPermutation(cfg, s[0], SortBy(cfg, s[1..]));
      assert s == [s[0]] + s[1..];
    }
    assert |multiset(SortBy(cfg, s))| == |multiset(s)|;
  }

  /** The records whose sort value is `x`, in list order. */
  function WithValue(cfg: SortConfig, x: JsValue, s: seq<Registration>): seq<Registration> {
    if s == [] then []
    else (if SortValue(cfg, s[0]) == x then [s[0]] else []) + WithValue(cfg, x, s[1..])
  }

  lemma WithValueAppend(cfg: SortConfig, x: JsValue, a: seq<Registration>, b: seq<Registration>)
    ensures WithValue(cfg, x, a + b) == WithValue(cfg, x, a) + WithValue(cfg, x, b)
  {
    if a != [] {
      WithValueAppend(cfg, x, a[1..], b);
      assert (a + b)[0] == a[0] && (a + b)[1..] == a[1..] + b;
    } else {
      assert a + b == b;
    }
  }

  /** No value is below itself, so two records with the same sort value tie. */
  lemma JsLessIrreflexive(x: JsValue)
    ensures !JsLess(x, x)
  {
    if x.Str? { LexLessIrreflexive(x.s); }
  }

  lemma {:induction false} InsertKeepsTies(cfg: SortConfig, x: JsValue, y: Registration, t: seq<Registration>)
    ensures WithValue(cfg, x, Insert(cfg, y, t)) == WithValue(cfg, x, [y] + t)
  {
    WithValueAppend(cfg, x, [y], t);
    if t != [] && Compare(cfg, y, t[0]) > 0 {
      JsLessIrreflexive(SortValue(cfg, y));
      assert SortValue(cfg, t[0]) != SortValue(cfg, y);
      InsertKeepsTies(cfg, x, y, t[1..]);
      WithValueAppend(cfg, x, [t[0]], Insert(cfg, y, t[1..]));
      WithValueAppend(cfg, x, [y], t[1..]);
      WithValueAppend(cfg, x, [t[0]], t[1..]);
      assert [t[0]] + t[1..] == t;
    }
  }

  /**
   * The sort is stable: the records that share a sort value come out in the
   * order they went in, so, for example, participants of one gender keep the
   * filter's order after a click on "Gender".
   */
  lemma {:induction false} SortKeepsTies(cfg: SortConfig, x: JsValue, s: seq<Registration>)
    ensures WithValue(cfg, x, SortBy(cfg, s)) == WithValue(cfg, x, s)
  {
    if s != [] {
      SortKeepsTies(cfg, x, s[1..]);
      InsertKeepsTies(cfg, x, s[0], SortBy(cfg, s[1..]));
      WithValueAppend(cfg, x, [s[0]], SortBy(cfg, s[1..]));
      WithValueAppend(cfg, x, [s[0]], s[1..]);
      assert [s[0]] + s[1..] == s;
    }
  }

  /** Every property yields one kind of value in every record, or `undefined`, so no sort compares a string with a number. */
  lemma FieldKindsAgree(a: Registration, b: Registration, key: string)
    requires FieldOf(a, key) != Undefined && FieldOf(b, key) != Undefined
    ensures KindOf(FieldOf(a, key)) == KindOf(FieldOf(b, key))
  {
  }

  /** When the comparator answers 0 for every pair, sorting keeps the order. */
  lemma {:induction false} SortAllTiesKeepsOrder(cfg: SortConfig, s: seq<Registration>)
    requires forall a, b :: a in s && b in s ==> Compare(cfg, a, b) == 0
    ensures SortBy(cfg, s) == s
  {
    if s != [] {
      SortAllTiesKeepsOrder(cfg, s[1..]);
      assert s[1..] == [] || s[1..][0] in s;
      assert [s[0]] + s[1..] == s;
    }
  }

  /** Before any header is clicked the key is `null`, and the sort leaves the list as it is. */
  lemma NoKeyKeepsOrder(s: seq<Registration>, direction: Direction)
    ensures SortBy(SortConfig(None, direction), s) == s
  {
    SortAllTiesKeepsOrder(SortConfig(None, direction), s);
  }

  /** A key that names no record property reads `undefined` on both sides, so the order stays. */
  lemma AbsentKeyKeepsOrder(s: seq<Registration>, key: string, direction: Direction)
    requires forall r: Registration :: FieldOf(r, key) == Undefined
    ensures SortBy(SortConfig(Some(key), direction), s) == s
  {
    SortAllTiesKeepsOrder(SortConfig(Some(key), direction), s);
  }

  /** The keys the table headers pass to `handleSort`. */
  const HeaderKeys := ["name", "gender", "status", "dob", "parish", "payment", "registered"]

  /** Every header key but "gender" is not a record property, so clicking it leaves the list unordered. */
  lemma HeaderSortKeepsOrder(s: seq<Registration>, key: string, direction: Direction)
    requires key in HeaderKeys && key != "gender"
    ensures SortBy(SortConfig(Some(key), direction), s) == s
  {
    AbsentKeyKeepsOrder(s, key, direction);
  }

  lemma JsLessAsymmetric(x: JsValue, y: JsValue)
    ensures !(JsLess(x, y) && JsLess(y, x))
  {
    if x.Str? && y.Str? && LexLess(x.s, y.s) { LexLessAsymmetric(x.s, y.s); }
  }

  /** Among values of one kind, "not less than" is transitive. */
  lemma NotLessTransitive(x: JsValue, y: JsValue, z: JsValue)
    requires KindOf(x) == KindOf(y) == KindOf(z)
    requires !JsLess(y, x) && !JsLess(z, y)
    ensures !JsLess(z, x)
  {
    if x.Str? && JsLess(z, x) {
      if x.s == y.s {
      } else {
        LexLessTotal(x.s, y.s);
        LexLessTransitive(z.s, x.s, y.s);
      }
    }
  }

  lemma CompareAntisymmetric(cfg: SortConfig, a: Registration, b: Registration)
    ensures Compare(cfg, a, b) == -Compare(cfg, b, a)
  {
    JsLessAsymmetric(SortValue(cfg, a), SortValue(cfg, b));
  }

  lemma CompareTransitive(cfg: SortConfig, a: Registration, b: Registration, c: Registration)
    requires KindOf(SortValue(cfg, a)) == KindOf(SortValue(cfg, b)) == KindOf(SortValue(cfg, c))
    requires Compare(cfg, a, b) <= 0 && Compare(cfg, b, c) <= 0
    ensures Compare(cfg, a, c) <= 0
  {
    var x, y, z := SortValue(cfg, a), SortValue(cfg, b), SortValue(cfg, c);
    JsLessAsymmetric(x, y);
    JsLessAsymmetric(y, z);
    JsLessAsymmetric(x, z);
    if cfg.direction == Asc {
      NotLessTransitive(x, y, z);
    } else {
      NotLessTransitive(z, y, x);
    }
  }

  lemma SortedCons(cfg: SortConfig, h: Registration, u: seq<Registration>)
    requires Sorted(cfg, u)
    requires forall y :: y in u ==> Compare(cfg, h, y) <= 0
    ensures Sorted(cfg, [h] + u)
  {
    var t := [h] + u;
    forall i, j | 0 <= i < j < |t| ensures Compare(cfg, t[i], t[j]) <= 0 {
      if i == 0 {
        assert t[j] == u[j - 1];
      } else {
        assert t[i] == u[i - 1] && t[j] == u[j - 1];
      }
    }
  }

  lemma {:induction false} InsertSorted(cfg: SortConfig, x: Registration, t: seq<Registration>, kind: nat)
    requires Sorted(cfg, t)
    requires UniformKind(cfg, [x] + t, kind)
    ensures Sorted(cfg, Insert(cfg, x, t))
  {
    if t != [] {
      assert t[0] in [x] + t;
      if Compare(cfg, x, t[0]) <= 0 {
        forall y | y in t ensures Compare(cfg, x, y) <= 0 {
          var j :| 0 <= j < |t| && t[j] == y;
          if j > 0 {
            assert y in [x] + t;
            CompareTransitive(cfg, x, t[0], y);
          }
        }
        SortedCons(cfg, x, t);
      } else {
        var u := Insert(cfg, x, t[1..]);
        assert Sorted(cfg, t[1..]) by {
          forall i, j | 0 <= i < j < |t[1..]| ensures Compare(cfg, t[1..][i], t[1..][j]) <= 0 {
            assert t[1..][i] == t[i + 1] && t[1..][j] == t[j + 1];
          }
        }
        assert UniformKind(cfg, [x] + t[1..], kind) by {
          forall r | r in [x] + t[1..] ensures r in [x] + t {
            assert r == x || r in t[1..];
          }
        }
        InsertSorted(cfg, x, t[1..], kind);
        InsertPermutation(cfg, x, t[1..]);
        forall y | y in u ensures Compare(cfg, t[0], y) <= 0 {
          assert y in multiset([x] + t[1..]);
          assert y == x || y in t[1..];
          if y == x {
            CompareAntisymmetric(cfg, x, t[0]);
          } else {
            var j :| 0 <= j < |t[1..]| && t[1..][j] == y;
            assert t[j + 1] == y;
          }
        }
        SortedCons(cfg, t[0], u);
      }
    }
  }

  /** When the key yields values of one kind in every record, the result is in comparator order. */
  lemma {:induction false} SortBySorted(cfg: SortConfig, s: seq<Registration>, kind: nat)
    requires UniformKind(cfg, s, kind)
    ensures Sorted(cfg, SortBy(cfg, s))
  {
    if s != [] {
      var rest := SortBy(cfg, s[1..]);
      assert UniformKind(cfg, s[1..], kind) by {
        forall r | r in s[1..] ensures r in s { }
      }
      SortBySorted(cfg, s[1..], kind);
      SortPermutation(cfg, s[1..]);
      assert UniformKind(cfg, [s[0]] + rest, kind) by {
        forall r | r in [s[0]] + rest ensures r in s {
          if r != s[0] {
            assert r in multiset(rest);
          }
        }
      }
      InsertSorted(cfg, s[0], rest, kind);
    }
  }

  /**
   * Sorting by a key that is a property of the same kind in every record orders
   * the list by that property: never decreasing for "asc", never increasing
   * for "desc". The result holds the same records.
   */
  lemma SortOrdersByField(cfg: SortConfig, s: seq<Registration>, kind: nat)
    requires UniformKind(cfg, s, kind)
    ensures multiset(SortBy(cfg, s)) == multiset(s)
    ensures var r := SortBy(cfg, s);
      forall i, j :: 0 <= i < j < |r| ==>
        (cfg.direction == Asc ==> !JsLess(SortValue(cfg, r[j]), SortValue(cfg, r[i]))) &&
        (cfg.direction == Desc ==> !JsLess(SortValue(cfg, r[i]), SortValue(cfg, r[j])))
  {
    SortPermutation(cfg, s);
    SortBySorted(cfg, s, kind);
    var r := SortBy(cfg, s);
    forall i, j | 0 <= i < j < |r|
      ensures (cfg.direction == Asc ==> !JsLess(SortValue(cfg, r[j]), SortValue(cfg, r[i]))) &&
              (cfg.direction == Desc ==> !JsLess(SortValue(cfg, r[i]), SortValue(cfg, r[j])))
    {
      assert Compare(cfg, r[i], r[j]) <= 0;
      JsLessAsymmetric(SortValue(cfg, r[i]), SortValue(cfg, r[j]));
    }
  }

  /** Clicking the "Gender" header orders the list by gender, ascending or descending. */
  lemma GenderSortOrdered(s: seq<Registration>, direction: Direction)
    ensures var r := SortBy(SortConfig(Some("gender"), direction), s);
      && multiset(r) == multiset(s)
      && forall i, j :: 0 <= i < j < |r| ==>
        (direction == Asc ==> !LexLess(r[j].gender, r[i].gender)) &&
        (direction == Desc ==> !LexLess(r[i].gender, r[j].gender))
  {
    SortOrdersByField(SortConfig(Some("gender"), direction), s, 1);
  }

  /** The visible list holds exactly the filtered participants, with no key in the filter's order. */
  lemma FilteredMembersArePermutation(participants: seq<Registration>, search: string, gender: string,
                                      payment: string, cfg: SortConfig)
    ensures multiset(FilteredMembers(participants, search, gender, payment, cfg))
         == multiset(FilterMembers(participants, search, gender, payment))
    ensures cfg.key.None? ==>
      FilteredMembers(participants, search, gender, payment, cfg) == FilterMembers(participants, search, gender, payment)
  {
    SortPermutation(cfg, FilterMembers(participants, search, gender, payment));
    if cfg.key.None? {
      NoKeyKeepsOrder(FilterMembers(participants, search, gender, payment), cfg.direction);
    }
  }

  /** The updater `handleSort(key)` passes to `setSortConfig`. */
  function NextSortConfig(prev: SortConfig, key: string): SortConfig {
    if prev.key == Some(key) then SortConfig(Some(key), if prev.direction == Asc then Desc else Asc)
    else SortConfig(Some(key), Asc)
  }

  /**
   * A click on the current key flips the direction, a click on another key
   * starts ascending, and a second click on the same key restores the
   * direction the key had before.
   */
  lemma HandleSortToggles(prev: SortConfig, key: string)
    ensures NextSortConfig(prev, key).key == Some(key)
    ensures prev.key == Some(key) ==> NextSortConfig(prev, key).direction != prev.direction
    ensures prev.key != Some(key) ==> NextSortConfig(prev, key).direction == Asc
    ensures prev.key == Some(key) ==> NextSortConfig(NextSortConfig(prev, key), key) == prev
    ensures NextSortConfig(NextSortConfig(prev, key), key).direction == (if prev.key == Some(key) then prev.direction else Desc)
  {
  }

  // ---- Export ----

  /** One spreadsheet row of the export, column by column. `registered` is the creation time before locale formatting. */
  datatype ExportRow = ExportRow(
    fullName: string,
    gender: string,
    dateOfBirth: int,
    number: string,
    emergencyContact: string,
    email: string,
    address: string,
    parish: string,
    lifeStatus: string,
    payment: string,
    comment: string,
    prayerIntention: string,
    registered: int,
    paymentProof: string
  )

  /** `value || '-'`. */
  function OrDash(o: Option<string>): (r: string)
    ensures r != ""
    ensures Truthy(o) ==> r == o.value
    ensures !Truthy(o) ==> r == "-"
  {
    if Truthy(o) then o.value else "-"
  }

  /** The column projection of one participant. */
  function ExportRowOf(m: Registration): (row: ExportRow)
    ensures row.fullName == m.fullName && row.email == m.emailAddress && row.registered == m.createdAt
    ensures row.gender == m.gender && row.dateOfBirth == m.dateOfBirth && row.number == m.whatsappNumber
    ensures row.emergencyContact == m.emergencyContact && row.parish == m.parishName
    ensures row.lifeStatus == m.lifeStatus && row.payment == m.paymentMethod
    ensures Truthy(m.address) ==> row.address == m.address.value
    ensures Truthy(m.comment) ==> row.comment == m.comment.value
    ensures Truthy(m.prayerIntention) ==> row.prayerIntention == m.prayerIntention.value
    ensures row.address == "-" <==> !Truthy(m.address) || m.address.value == "-"
    ensures row.comment == "-" <==> !Truthy(m.comment) || m.comment.value == "-"
    ensures row.prayerIntention == "-" <==> !Truthy(m.prayerIntention) || m.prayerIntention.value == "-"
    ensures row.paymentProof == "Slip Attached" <==> Truthy(m.paymentProof)
    ensures row.paymentProof == "-" <==> !Truthy(m.paymentProof)
  {
    ExportRow(
      m.fullName, m.gender, m.dateOfBirth, m.whatsappNumber, m.emergencyContact, m.emailAddress,
      OrDash(m.address), m.parishName, m.lifeStatus, m.paymentMethod, OrDash(m.comment),
      OrDash(m.prayerIntention), m.createdAt, if Truthy(m.paymentProof) then "Slip Attached" else "-")
  }

  /** `participants.map(...)` in `downloadExcel`: the loaded list, not the visible one. */
  function ExportRows(participants: seq<Registration>): (rows: seq<ExportRow>)
    ensures |rows| == |participants|
    ensures forall i :: 0 <= i < |rows| ==> rows[i] == ExportRowOf(participants[i])
  {
    seq(|participants|, i requires 0 <= i < |participants| => ExportRowOf(participants[i]))
  }

  /** A participant hidden by the search is still exported: the export ignores the filters. */
  lemma ExportIgnoresFilters(a: Registration, b: Registration)
    requires a.fullName == "Anna" && b.fullName == "Ben"
    ensures |FilteredMembers([a, b], "anna", "all", "all", InitialSort)| == 1
    ensures |ExportRows([a, b])| == 2
  {
    var lowerAnna := Lower("Anna");
    assert lowerAnna == "anna";
    assert OccursAt(lowerAnna, Lower("anna"), 0);
    var lowerBen := Lower("Ben");
    assert lowerBen == "ben";
    assert !Includes(lowerBen, Lower("anna"));
    assert MatchesMember(a, "anna", "all", "all");
    assert !MatchesMember(b, "anna", "all", "all");
    assert FilterMembers([a, b], "anna", "all", "all") == [a] by {
      assert [a, b][1..] == [b];
      assert [b][1..] == [];
      assert FilterMembers([b], "anna", "all", "all") == [];
    }
    NoKeyKeepsOrder([a], Asc);
  }

  /** Exporting a concatenation exports each part in turn. */
  lemma ExportRowsAppend(a: seq<Registration>, b: seq<Registration>)
    ensures ExportRows(a + b) == ExportRows(a) + ExportRows(b)
  {
  }

  /** Exporting fewer participants (counted with repetition) yields fewer rows of each kind. */
  lemma {:induction false} ExportRowsMonotone(a: seq<Registration>, b: seq<Registration>)
    requires multiset(a) <= multiset(b)
    ensures multiset(ExportRows(a)) <= multiset(ExportRows(b))
    decreases |a|
  {
    if a != [] {
      var x := a[0];
      assert a == [x] + a[1..];
      assert x in multiset(b);
      var k :| 0 <= k < |b| && b[k] == x;
      var rest := b[..k] + b[k + 1..];
      assert b == b[..k] + [x] + b[k + 1..];
      assert multiset(rest) == multiset(b) - multiset{x};
      ExportRowsMonotone(a[1..], rest);
      ExportRowsAppend([x], a[1..]);
      ExportRowsAppend(b[..k] + [x], b[k + 1..]);
      ExportRowsAppend(b[..k], [x]);
      ExportRowsAppend(b[..k], b[k + 1..]);
    }
  }

  /**
   * Whatever the search, selects and sort, the export writes one row per
   * loaded participant, never fewer than the page lists, and a row for every
   * participant the page lists.
   */
  lemma ExportCoversEveryView(participants: seq<Registration>, search: string, gender: string, payment: string,
                              cfg: SortConfig)
    ensures |ExportRows(participants)| == |participants|
    ensures |participants| >= |FilteredMembers(participants, search, gender, payment, cfg)|
    ensures forall m :: m in FilteredMembers(participants, search, gender, payment, cfg) ==>
      ExportRowOf(m) in ExportRows(participants)
  {
    var filtered := FilterMembers(participants, search, gender, payment);
    FilterMembersSpec(participants, search, gender, payment);
    SubseqElements(filtered, participants);
    SortPermutation(cfg, filtered);
    forall m | m in FilteredMembers(participants, search, gender, payment, cfg)
      ensures ExportRowOf(m) in ExportRows(participants)
    {
      assert m in multiset(filtered);
      var i :| 0 <= i < |participants| && participants[i] == m;
      assert ExportRows(participants)[i] == ExportRowOf(m);
    }
  }

  /**
   * The export as the filtered view would have it: one row per listed
   * participant, in display order, each row one the whole-list export also
   * writes, and no row more often than there.
   */
  function ExportVisibleRows(participants: seq<Registration>, search: string, gender: string, payment: string,
                             cfg: SortConfig): (rows: seq<ExportRow>)
    ensures |rows| == |FilteredMembers(participants, search, gender, payment, cfg)|
    ensures forall i :: 0 <= i < |rows| ==>
      rows[i] == ExportRowOf(FilteredMembers(participants, search, gender, payment, cfg)[i])
    ensures multiset(rows) <= multiset(ExportRows(participants))
  {
    var filtered := FilterMembers(participants, search, gender, payment);
    FilterMembersSpec(participants, search, gender, payment);
    SubseqMultiset(filtered, participants);
    SortPermutation(cfg, filtered);
    ExportRowsMonotone(FilteredMembers(participants, search, gender, payment, cfg), participants);
    ExportRows(FilteredMembers(participants, search, gender, payment, cfg))
  }

  /** The record property each column header was evidently meant to sort by. */
  function HeaderField(key: string): (field: string)
    ensures key in HeaderKeys ==> forall r: Registration :: FieldOf(r, field) != Undefined
  {
    match key
    case "name" => "fullName"
    case "status" => "lifeStatus"
    case "dob" => "dateOfBirth"
    case "parish" => "parishName"
    case "payment" => "paymentMethod"
    case "registered" => "createdAt"
    case _ => key
  }

  const SampleRecord := Registration("", "", "", "", 0, "", "", "", None, "", "", None, None, None, 0, None)

  /** The "Name" header compares `undefined` with `undefined`, so two names out of order stay out of order. */
  lemma NameHeaderDoesNotSortByName(a: Registration, b: Registration)
    requires a.fullName == "Bea" && b.fullName == "Al"
    ensures SortBy(SortConfig(Some("name"), Asc), [a, b]) == [a, b]
    ensures LexLess(b.fullName, a.fullName)
  {
    HeaderSortKeepsOrder([a, b], "name", Asc);
  }

  /** Sorting by the property a header stands for orders the list by that property. */
  lemma HeaderFieldSortOrdered(s: seq<Registration>, key: string, direction: Direction)
    requires key in HeaderKeys
    ensures var cfg := SortConfig(Some(HeaderField(key)), direction);
      var r := SortBy(cfg, s);
      && multiset(r) == multiset(s)
      && forall i, j :: 0 <= i < j < |r| ==>
        (direction == Asc ==> !JsLess(SortValue(cfg, r[j]), SortValue(cfg, r[i]))) &&
        (direction == Desc ==> !JsLess(SortValue(cfg, r[i]), SortValue(cfg, r[j])))
  {
    var cfg := SortConfig(Some(HeaderField(key)), direction);
    var kind := KindOf(SortValue(cfg, SampleRecord));
    assert UniformKind(cfg, s, kind);
    SortOrdersByField(cfg, s, kind);
  }

  // ---- Admin session ----

  /** Fifteen minutes, in milliseconds. */
  const SessionLengthMs := 15 * 60 * 1000

  /** The stored flag is a non-empty string and the current time is before the stored expiry. */
  predicate SessionActive(flag: Option<string>, expiry: Option<int>, now: int) {
    Truthy(flag) && expiry.Some? && now < expiry.value
  }

  /** The page's state: the sort configuration, the session flag and the two local-storage items. */
  class PartsPage {
    var sortConfig: SortConfig
    var authenticated: bool
    var storedFlag: Option<string>
    var storedExpiry: Option<int>

    constructor (flag: Option<string>, expiry: Option<int>)
      ensures sortConfig == InitialSort && !authenticated
      ensures storedFlag == flag && storedExpiry == expiry
    {
      sortConfig := InitialSort;
      authenticated := false;
      storedFlag, storedExpiry := flag, expiry;
    }

    /** The mount effect: keeps an unexpired session, otherwise removes both stored items. */
    method RestoreSession(now: int)
      modifies this
      ensures sortConfig == old(sortConfig)
      ensures SessionActive(old(storedFlag), old(storedExpiry), now) ==>
        authenticated && storedFlag == old(storedFlag) && storedExpiry == old(storedExpiry)
      ensures !SessionActive(old(storedFlag), old(storedExpiry), now) ==>
        authenticated == old(authenticated) && storedFlag == None && storedExpiry == None
    {
      if SessionActive(storedFlag, storedExpiry, now) {
        authenticated := true;
      } else {
        storedFlag, storedExpiry := None, None;
      }
    }

    /** The successful-login branch: the session then lasts until fifteen minutes after `now`. */
    method CompleteLogin(now: int)
      modifies this
      ensures authenticated && sortConfig == old(sortConfig)
      ensures storedFlag == Some("true") && storedExpiry == Some(now + SessionLengthMs)
      ensures forall later :: SessionActive(storedFlag, storedExpiry, later) <==> later < now + 900000
    {
      authenticated := true;
      storedFlag := Some("true");
      storedExpiry := Some(now + SessionLengthMs);
    }

    /** A click on a sortable header. */
    method HandleSort(key: string)
      modifies this
      ensures sortConfig == NextSortConfig(old(sortConfig), key)
      ensures authenticated == old(authenticated)
      ensures storedFlag == old(storedFlag) && storedExpiry == old(storedExpiry)
    {
      sortConfig := NextSortConfig(sortConfig, key);
    }
  }
}
