/**
 * The pure half of the entity store (context/DataContext.tsx): the updater
 * each setter is given, the stable date sort behind `addGISMetric`, and
 * the load-or-fallback step that initialises a collection.
 */
module DataContext {
  import opened Wrappers
  import opened Types
  import opened Numbers
  import opened Seqs

  // ---------------------------------------------------------------- by id

  function HasId<T>(idOf: T -> string, id: string): T -> bool { (x: T) => idOf(x) == id }
  function LacksId<T>(idOf: T -> string, id: string): T -> bool { (x: T) => idOf(x) != id }

  lemma HasIdMeans<T>(idOf: T -> string, id: string)
    ensures forall x :: HasId(idOf, id)(x) == (idOf(x) == id)
  {
  }

  /** `prev.filter(x => x.id !== id)`: every record with that id goes, the rest stay in order. */
  function RemoveById<T(!new)>(s: seq<T>, idOf: T -> string, id: string): (r: seq<T>)
    ensures forall x :: x in r <==> x in s && idOf(x) != id
  {
    Filter(s, LacksId(idOf, id))
  }

  /** Deleting an id no record carries leaves the collection as it was. */
  lemma DeleteAbsentIsNoOp<T(!new)>(s: seq<T>, idOf: T -> string, id: string)
    requires forall x :: x in s ==> idOf(x) != id
    ensures RemoveById(s, idOf, id) == s
  {
    FilterKeepsAll(s, LacksId(idOf, id));
  }

  /** Deleting the same id twice is deleting it once. */
  lemma DeleteIdempotent<T(!new)>(s: seq<T>, idOf: T -> string, id: string)
    ensures RemoveById(RemoveById(s, idOf, id), idOf, id) == RemoveById(s, idOf, id)
  {
    FilterIdempotent(s, LacksId(idOf, id));
  }

  /**
   * Delete removes every duplicate of the id and keeps every other record
   * with its multiplicity; on a concatenation it works part by part, so the
   * survivors keep their relative order.
   */
  lemma DeleteExactly<T(!new)>(a: seq<T>, b: seq<T>, idOf: T -> string, id: string, x: T)
    ensures multiset(RemoveById(a, idOf, id))[x] == if idOf(x) == id then 0 else multiset(a)[x]
    ensures RemoveById(a + b, idOf, id) == RemoveById(a, idOf, id) + RemoveById(b, idOf, id)
  {
    FilterCounts(a, LacksId(idOf, id), x);
    FilterConcat(a, b, LacksId(idOf, id));
  }

  /** Appending a record with a fresh id and then deleting that id restores the collection. */
  lemma AppendThenDelete<T(!new)>(s: seq<T>, idOf: T -> string, x: T)
    requires forall y :: y in s ==> idOf(y) != idOf(x)
    ensures RemoveById(s + [x], idOf, idOf(x)) == s
  {
    FilterConcat(s, [x], LacksId(idOf, idOf(x)));
    DeleteAbsentIsNoOp(s, idOf, idOf(x));
  }

  /** Prepending (as `addBeneficiary` does) and then deleting the fresh id restores the collection. */
  lemma PrependThenDelete<T(!new)>(s: seq<T>, idOf: T -> string, x: T)
    requires forall y :: y in s ==> idOf(y) != idOf(x)
    ensures RemoveById([x] + s, idOf, idOf(x)) == s
  {
    FilterConcat([x], s, LacksId(idOf, idOf(x)));
    DeleteAbsentIsNoOp(s, idOf, idOf(x));
  }

  /**
   * An update by id that does not touch the id field leaves the records
   * with other ids, and their order, exactly as they were.
   */
  lemma UpdateKeepsOthers<T(!new)>(s: seq<T>, idOf: T -> string, id: string, change: T -> T)
    requires forall x :: idOf(change(x)) == idOf(x)
    ensures RemoveById(UpdateWhere(s, HasId(idOf, id), change), idOf, id) == RemoveById(s, idOf, id)
  {
  }

  // ------------------------------------------------------------ updaters

  function WithStatusAndProgress(status: ActivityStatus, progress: int): Activity -> Activity
  {
    (a: Activity) => a.(status := status, completionPercentage := progress)
  }

  /**
   * `updateActivityStatus`: the activities with the id take the given
   * status and progress, set independently of each other; every other
   * field and every other activity is untouched, the length and order kept.
   */
  function UpdateActivityStatus(s: seq<Activity>, id: string, status: ActivityStatus, progress: int): (r: seq<Activity>)
    ensures |r| == |s|
    ensures forall i :: 0 <= i < |s| && s[i].id != id ==> r[i] == s[i]
    ensures forall i :: 0 <= i < |s| && s[i].id == id ==>
      && r[i].status == status && r[i].completionPercentage == progress
      && r[i] == s[i].(status := r[i].status, completionPercentage := r[i].completionPercentage)
  {
    HasIdMeans(ActivityId, id);
    UpdateWhere(s, HasId(ActivityId, id), WithStatusAndProgress(status, progress))
  }

  /** `Math.round(actualAmount * currencyRate)`: an amount in MZN converted to whole CAD. */
  function ToCad(amount: real, currencyRate: real): real
  {
    Round(amount * currencyRate) as real
  }

  /** The derived field's invariant: the CAD equivalent is the rounded conversion of the actual amount. */
  predicate CadConsistent(b: BudgetLine)
  {
    b.cadEquivalent == ToCad(b.actualAmount, b.currencyRate)
  }

  predicate AllCadConsistent(s: seq<BudgetLine>)
  {
    forall i :: 0 <= i < |s| ==> CadConsistent(s[i])
  }

  /** A line with a new actual amount, converted at the line's own stored rate. */
  function SetActual(b: BudgetLine, actualAmount: real): BudgetLine
  {
    b.(actualAmount := actualAmount, cadEquivalent := ToCad(actualAmount, b.currencyRate))
  }

  function WithActual(actualAmount: real): BudgetLine -> BudgetLine
  {
    (b: BudgetLine) => SetActual(b, actualAmount)
  }

  /**
   * `updateBudgetActual`: each line with the id takes the new actual amount
   * and the CAD equivalent recomputed with that line's own stored rate;
   * category, planned amount and rate stay, other lines are untouched.
   */
  function UpdateBudgetActual(s: seq<BudgetLine>, id: string, actualAmount: real): (r: seq<BudgetLine>)
    ensures |r| == |s|
    ensures forall i :: 0 <= i < |s| && s[i].id != id ==> r[i] == s[i]
    ensures forall i :: 0 <= i < |s| && s[i].id == id ==>
      && r[i].id == id && r[i].category == s[i].category
      && r[i].plannedAmount == s[i].plannedAmount && r[i].currencyRate == s[i].currencyRate
      && r[i].actualAmount == actualAmount && CadConsistent(r[i])
  {
    HasIdMeans(BudgetLineId, id);
    UpdateWhere(s, HasId(BudgetLineId, id), WithActual(actualAmount))
  }

  /** Updating an actual amount keeps every line's CAD equivalent consistent. */
  lemma UpdateBudgetActualKeepsCad(s: seq<BudgetLine>, id: string, actualAmount: real)
    requires AllCadConsistent(s)
    ensures AllCadConsistent(UpdateBudgetActual(s, id, actualAmount))
  {
  }

  /** Scenario: a line planned at 1000 MZN at rate 0.022 whose actual becomes 500 converts to 11 CAD. */
  lemma UpdateBudgetActualExample()
    ensures UpdateBudgetActual([BudgetLine("b1", "Travel", 1000.0, 0.0, 0.0, 0.022)], "b1", 500.0)
         == [BudgetLine("b1", "Travel", 1000.0, 500.0, 11.0, 0.022)]
  {
  }

  function WithComplianceStatus(status: ComplianceStatus): ComplianceItem -> ComplianceItem
  {
    (c: ComplianceItem) => c.(status := status)
  }

  /**
   * `updateComplianceStatus`: the items with the id take whatever status is
   * given, with no transition check; everything else is untouched.
   */
  function UpdateComplianceStatus(s: seq<ComplianceItem>, id: string, status: ComplianceStatus): (r: seq<ComplianceItem>)
    ensures |r| == |s|
    ensures forall i :: 0 <= i < |s| && s[i].id != id ==> r[i] == s[i]
    ensures forall i :: 0 <= i < |s| && s[i].id == id ==> r[i] == ComplianceItem(id, s[i].item, status, s[i].dueDate)
  {
    HasIdMeans(ComplianceItemId, id);
    UpdateWhere(s, HasId(ComplianceItemId, id), WithComplianceStatus(status))
  }

  /** An update naming an id that no record has leaves the collection identical. */
  lemma UpdatesWithAbsentIdChangeNothing(activities: seq<Activity>, budget: seq<BudgetLine>,
                                         compliance: seq<ComplianceItem>, id: string)
    requires forall a :: a in activities ==> a.id != id
    requires forall b :: b in budget ==> b.id != id
    requires forall c :: c in compliance ==> c.id != id
    ensures forall status, progress :: UpdateActivityStatus(activities, id, status, progress) == activities
    ensures forall actualAmount :: UpdateBudgetActual(budget, id, actualAmount) == budget
    ensures forall status :: UpdateComplianceStatus(compliance, id, status) == compliance
  {
  }

  // ------------------------------------------------------- GIS metric sort

  function DigitValue(c: char): int { c as int - '0' as int }

  /**
   * The time key of a date string: the number its digits spell, ignoring
   * separators. On ISO `yyyy-mm-dd` dates this orders exactly as
   * `new Date(date).getTime()` does.
   */
  function DateKey(date: string): (k: nat)
  {
    if date == [] then 0
    else if '0' <= date[|date| - 1] <= '9' then 10 * DateKey(date[..|date| - 1]) + DigitValue(date[|date| - 1])
    else DateKey(date[..|date| - 1])
  }

  predicate IsDigit(c: char) { '0' <= c <= '9' }

  /** An ISO calendar date `yyyy-mm-dd`. */
  predicate IsIsoDate(d: string)
  {
    && |d| == 10 && d[4] == '-' && d[7] == '-'
    && forall i :: 0 <= i < 10 && i != 4 && i != 7 ==> IsDigit(d[i])
  }

  function Year(d: string): nat requires |d| == 10 { DateKey(d[..4]) }
  function Month(d: string): nat requires |d| == 10 { DateKey(d[5..7]) }
  function Day(d: string): nat requires |d| == 10 { DateKey(d[8..]) }

  /** A separator adds nothing to a key. */
  lemma DateKeySkipSeparator(prefix: string)
    ensures DateKey(prefix + ['-']) == DateKey(prefix)
  {
    assert (prefix + ['-'])[..|prefix|] == prefix;
  }

  /** Two digits appended shift a key two decimal places and add their value, which is below 100. */
  lemma DateKeyAppendTwoDigits(prefix: string, digits: string)
    requires |digits| == 2 && IsDigit(digits[0]) && IsDigit(digits[1])
    ensures DateKey(prefix + digits) == 100 * DateKey(prefix) + DateKey(digits)
    ensures DateKey(digits) < 100
  {
    assert prefix + digits == (prefix + [digits[0]]) + [digits[1]];
    assert digits == [digits[0]] + [digits[1]];
    DateKeyAppendDigit(prefix + [digits[0]], digits[1]);
    DateKeyAppendDigit(prefix, digits[0]);
    DateKeyAppendDigit([digits[0]], digits[1]);
    DateKeyAppendDigit([], digits[0]);
    assert [] + [digits[0]] == [digits[0]];
  }

  /** The key of an ISO date is year·10000 + month·100 + day, with month and day below 100. */
  lemma {:induction false} IsoDateKey(d: string)
    requires IsIsoDate(d)
    ensures DateKey(d) == 10000 * Year(d) + 100 * Month(d) + Day(d)
    ensures Month(d) < 100 && Day(d) < 100
  {
    var y, m, dd := d[..4], d[5..7], d[8..];
    assert d == ((y + ['-']) + m) + ['-'] + dd;
    DateKeySkipSeparator(y);
    DateKeyAppendTwoDigits(y + ['-'], m);
    DateKeySkipSeparator((y + ['-']) + m);
    DateKeyAppendTwoDigits(((y + ['-']) + m) + ['-'], dd);
  }

  /**
   * ISO dates' keys order as the calendar does, by year, then month, then
   * day, which is how their times order.
   */
  lemma IsoDatesOrderByCalendar(a: string, b: string)
    requires IsIsoDate(a) && IsIsoDate(b)
    ensures DateKey(a) < DateKey(b) <==>
      Year(a) < Year(b) || (Year(a) == Year(b) && (Month(a) < Month(b) || (Month(a) == Month(b) && Day(a) < Day(b))))
    ensures DateKey(a) == DateKey(b) <==> Year(a) == Year(b) && Month(a) == Month(b) && Day(a) == Day(b)
  {
    IsoDateKey(a);
    IsoDateKey(b);
  }

  /** The sort key of a metric: the time of its date. */
  function MetricKey(m: GISMetric): int { DateKey(m.date) }

  /**
   * `addGISMetric`'s updater, `[...prev, metric].sort(by date)`: sorted
   * ascending by date, holding the previous metrics and the new one, and
   * stable, since metrics of the same date keep their collection order.
   */
  function AddMetricSorted(s: seq<GISMetric>, m: GISMetric): (r: seq<GISMetric>)
    ensures SortedBy(r, MetricKey)
    ensures multiset(r) == multiset(s) + multiset{m}
    ensures forall k :: Filter(r, KeyIs(MetricKey, k)) == Filter(s + [m], KeyIs(MetricKey, k))
  {
    forall k ensures Filter(SortBy(s + [m], MetricKey), KeyIs(MetricKey, k)) == Filter(s + [m], KeyIs(MetricKey, k)) {
      SortIsStable(s + [m], MetricKey, k);
    }
    SortBy(s + [m], MetricKey)
  }

  /**
   * On a collection that is already sorted, the new metric lands after
   * every metric dated no later than it, the others keeping their order.
   */
  lemma AddMetricToSorted(s: seq<GISMetric>, m: GISMetric)
    requires SortedBy(s, MetricKey)
    ensures AddMetricSorted(s, m) == InsertBy(s, m, MetricKey)
  {
    SortedAppendIsInsert(s, m, MetricKey);
  }

  /** A digit appended to a date string shifts its key one decimal place. */
  lemma DateKeyAppendDigit(prefix: string, c: char)
    requires '0' <= c <= '9'
    ensures DateKey(prefix + [c]) == 10 * DateKey(prefix) + DigitValue(c)
  {
  }

  /**
   * Scenario: metrics dated 2025-03-02, 2025-03-01 and 2025-03-03, added in
   * that order, end up in date order.
   */
  lemma AddMetricScenario(a: GISMetric, b: GISMetric, c: GISMetric)
    requires a.date == "2025-03-02" && b.date == "2025-03-01" && c.date == "2025-03-03"
    ensures AddMetricSorted(AddMetricSorted(AddMetricSorted([], a), b), c) == [b, a, c]
  {
    var day := "2025-03-0";
    assert a.date == day + ['2'] && b.date == day + ['1'] && c.date == day + ['3'];
    DateKeyAppendDigit(day, '1');
    DateKeyAppendDigit(day, '2');
    DateKeyAppendDigit(day, '3');
    InsertThreeInOrder(a, b, c, MetricKey);
  }

  /** Deleting metrics keeps a sorted collection sorted. */
  lemma DeleteMetricKeepsSorted(s: seq<GISMetric>, id: string)
    requires SortedBy(s, MetricKey)
    ensures SortedBy(RemoveById(s, MetricId, id), MetricKey)
  {
    FilterKeepsSorted(s, MetricKey, LacksId(MetricId, id));
  }

  // ------------------------------------------------------------ storage

  /**
   * What a key of the browser's storage holds: the serialised form of one
   * collection, or `Raw` text that does not decode to one (`Raw("")` is the
   * empty string).
   */
  datatype Stored =
    | ActivitiesJson(activities: seq<Activity>)
    | BeneficiariesJson(beneficiaries: seq<Beneficiary>)
    | BudgetJson(budget: seq<BudgetLine>)
    | ComplianceJson(compliance: seq<ComplianceItem>)
    | MetricsJson(metrics: seq<GISMetric>)
    | LayersJson(layers: seq<GISLayer>)
    | ProvinceStatsJson(provinceStats: seq<GISProvinceStat>)
    | Raw(text: string)

  const ActivitiesKey: string := "activities"
  const BeneficiariesKey: string := "beneficiaries"
  const BudgetKey: string := "budget"
  const ComplianceKey: string := "compliance"
  const MetricsKey: string := "gisMetrics"
  const LayersKey: string := "gisLayers"
  const ProvinceStatsKey: string := "gisProvinceStats"

  function DecodeActivities(s: Stored): Option<seq<Activity>> { if s.ActivitiesJson? then Some(s.activities) else None }
  function DecodeBeneficiaries(s: Stored): Option<seq<Beneficiary>> { if s.BeneficiariesJson? then Some(s.beneficiaries) else None }
  function DecodeBudget(s: Stored): Option<seq<BudgetLine>> { if s.BudgetJson? then Some(s.budget) else None }
  function DecodeCompliance(s: Stored): Option<seq<ComplianceItem>> { if s.ComplianceJson? then Some(s.compliance) else None }
  function DecodeMetrics(s: Stored): Option<seq<GISMetric>> { if s.MetricsJson? then Some(s.metrics) else None }
  function DecodeLayers(s: Stored): Option<seq<GISLayer>> { if s.LayersJson? then Some(s.layers) else None }
  function DecodeProvinceStats(s: Stored): Option<seq<GISProvinceStat>> { if s.ProvinceStatsJson? then Some(s.provinceStats) else None }

  /** The outcome of a load: the stored value, or the fallback (with whether a warning was logged). */
  datatype Loaded<T> = FromStorage(value: T) | FromFallback(value: T, warned: bool)

  /**
   * `loadFromStorage`: a missing or empty entry gives the fallback silently;
   * an entry that fails to decode gives the fallback with a warning; no
   * error ever escapes.
   */
  function LoadFromStorage<T>(storage: map<string, Stored>, key: string, decode: Stored -> Option<T>, fallback: T): (r: Loaded<T>)
    ensures r.FromFallback? ==> r.value == fallback
    ensures r.FromStorage? <==> key in storage && storage[key] != Raw("") && decode(storage[key]).Some?
    ensures r.FromStorage? ==> decode(storage[key]) == Some(r.value)
    ensures r.FromFallback? && r.warned <==> key in storage && storage[key] != Raw("") && decode(storage[key]).None?
  {
    if key !in storage || storage[key] == Raw("") then FromFallback(fallback, false)
    else match decode(storage[key])
      case Some(v) => FromStorage(v)
      case None => FromFallback(fallback, true)
  }

  /** Saving a value and loading it back yields that value, whatever the fallback. */
  lemma LoadAfterSave<T>(storage: map<string, Stored>, key: string, encoded: Stored, decode: Stored -> Option<T>, x: T, fallback: T)
    requires encoded != Raw("") && decode(encoded) == Some(x)
    ensures LoadFromStorage(storage[key := encoded], key, decode, fallback) == FromStorage(x)
  {
  }
}
