/**
 * The Project Overview page (pages/Dashboard.tsx): the headline statistics,
 * the gender pie and the activity progress chart, all computed from a
 * snapshot of the store.
 */
module Dashboard {
  import opened Types
  import opened Numbers
  import opened Seqs
  import Budget
  import opened Beneficiaries

  predicate IsCompleted(a: Activity) { a.status == Completed }

  /** The share of activities that are completed, in whole percent; 0 with no activities. */
  function CompletionRate(s: seq<Activity>): (r: int)
    ensures s == [] ==> r == 0
    ensures 0 <= r <= 100
    ensures s != [] ==>
      (r as real - 0.5) * |s| as real <= Count(s, IsCompleted) as real * 100.0 < (r as real + 0.5) * |s| as real
  {
    Share(Count(s, IsCompleted), |s|)
  }

  /** The rate reaches its ends exactly where it should: all completed is 100, none completed is 0. */
  lemma CompletionRateEnds(s: seq<Activity>)
    ensures s != [] && (forall a :: a in s ==> a.status == Completed) ==> CompletionRate(s) == 100
    ensures (forall a :: a in s ==> a.status != Completed) ==> CompletionRate(s) == 0
  {
    if s != [] && forall a :: a in s ==> a.status == Completed {
      FilterKeepsAll(s, IsCompleted);
      ShareOfAllAndNone(|s|);
    }
    if forall a :: a in s ==> a.status != Completed {
      FilterDropsAll(s, IsCompleted);
      if s != [] {
        ShareOfAllAndNone(|s|);
      }
    }
  }

  /** The share of beneficiaries registered as female, in whole percent; 0 with no beneficiaries. */
  function FemaleRate(s: seq<Beneficiary>): (r: int)
    ensures s == [] ==> r == 0
    ensures 0 <= r <= 100
    ensures s != [] ==>
      (r as real - 0.5) * |s| as real <= Count(s, IsFemale) as real * 100.0 < (r as real + 0.5) * |s| as real
  {
    Share(Count(s, IsFemale), |s|)
  }

  /** The overview cards. */
  datatype Stats = Stats(
    totalActivities: nat, completionRate: int,
    totalBeneficiaries: nat, femaleRate: int,
    spent: real, budgetRate: int)

  /**
   * The statistics card values: counts, the completion and female rates
   * (whole percentages within 0..100), and the budget figures, which agree
   * with those of the Financial Monitoring page.
   */
  function ComputeStats(activities: seq<Activity>, beneficiaries: seq<Beneficiary>, budget: seq<BudgetLine>): (r: Stats)
    ensures r.totalActivities == |activities| && r.totalBeneficiaries == |beneficiaries|
    ensures r.completionRate == CompletionRate(activities) && r.femaleRate == FemaleRate(beneficiaries)
    ensures 0 <= r.completionRate <= 100 && 0 <= r.femaleRate <= 100
    ensures r.spent == Budget.TotalSpent(budget) && r.budgetRate == Budget.Utilization(budget)
  {
    Stats(|activities|, CompletionRate(activities), |beneficiaries|, FemaleRate(beneficiaries),
          Budget.TotalSpent(budget), Budget.Utilization(budget))
  }

  datatype Slice = Slice(name: string, value: int)

  /** The gender pie: a "Female" slice of the female rate and a "Male" slice holding the rest of 100. */
  function PieData(s: seq<Beneficiary>): (r: seq<Slice>)
    ensures |r| == 2 && r[0].name == "Female" && r[1].name == "Male"
    ensures r[0].value == FemaleRate(s) && r[1].value == 100 - FemaleRate(s)
    ensures 0 <= r[0].value <= 100 && 0 <= r[1].value <= 100
    ensures r[0].value + r[1].value == 100
  {
    var female := FemaleRate(s);
    [Slice("Female", female), Slice("Male", 100 - female)]
  }

  /** Three women and one man give a 75/25 pie. */
  lemma PieOfThreeWomenAndOneMan(w: Beneficiary, m: Beneficiary)
    requires w.gender == Female && m.gender == Male
    ensures PieData([w, w, w, m]) == [Slice("Female", 75), Slice("Male", 25)]
  {
    var s := [w, w, w, m];
    assert s[1..] == [w, w, m] && s[1..][1..] == [w, m] && s[1..][1..][1..] == [m] && [m][1..] == [];
    assert Filter([m], IsFemale) == [];
    assert Filter([w, m], IsFemale) == [w];
    assert Filter([w, w, m], IsFemale) == [w, w];
  }

  /** The "Male" slice also holds every non-binary beneficiary: with none female it is the whole pie. */
  lemma MaleSliceIncludesNonBinary(s: seq<Beneficiary>)
    requires s != []
    requires forall b :: b in s ==> b.gender == NonBinary
    ensures PieData(s)[1].value == 100
  {
    FilterDropsAll(s, IsFemale);
    ShareOfAllAndNone(|s|);
  }

  /** The most activities the progress chart shows. */
  const ChartedActivities: nat := 6

  /** A chart label: names over 15 characters keep their first 15 and gain "...". */
  function ChartName(name: string): (r: string)
    ensures |r| <= 18
    ensures |name| <= 15 ==> r == name
    ensures |name| > 15 ==> |r| == 18 && r[..15] == name[..15] && r[15..] == "..."
  {
    if |name| > 15 then name[..15] + "..." else name
  }

  datatype ProgressBar = ProgressBar(name: string, progress: int)

  /** The progress chart: the first six activities in store order, labelled and with their progress. */
  function ActivityData(s: seq<Activity>): (r: seq<ProgressBar>)
    ensures |r| == if |s| < ChartedActivities then |s| else ChartedActivities
    ensures forall i :: 0 <= i < |r| ==> r[i] == ProgressBar(ChartName(s[i].name), s[i].completionPercentage)
  {
    var n := if |s| < ChartedActivities then |s| else ChartedActivities;
    seq(n, i requires 0 <= i < n => ProgressBar(ChartName(s[i].name), s[i].completionPercentage))
  }

  /** Once six activities are charted, activities added after them do not change the chart. */
  lemma LaterActivitiesNotCharted(s: seq<Activity>, more: seq<Activity>)
    requires |s| >= ChartedActivities
    ensures ActivityData(s + more) == ActivityData(s)
  {
  }
}
