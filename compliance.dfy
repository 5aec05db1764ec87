/**
 * The Donor Compliance page (pages/Compliance.tsx): the status cycle a
 * click on an item's badge performs, the per-status counts and the add
 * form's guard and defaults.
 */
module Compliance {
  import opened Wrappers
  import opened Types
  import opened Seqs
  import opened DataContext

  /** The status a click moves an item to: Pending, then Complete, then Delayed, then Pending again. */
  function CycleStatus(s: ComplianceStatus): (r: ComplianceStatus)
    ensures r != s
  {
    match s
    case Pending => Complete
    case Complete => Delayed
    case Delayed => Pending
  }

  /** Three clicks bring any status back to itself. */
  lemma CycleHasPeriodThree(s: ComplianceStatus)
    ensures CycleStatus(CycleStatus(CycleStatus(s))) == s
    ensures CycleStatus(CycleStatus(s)) != s
  {
  }

  function StatusName(s: ComplianceStatus): string
  {
    match s
    case Complete => "Complete"
    case Pending => "Pending"
    case Delayed => "Delayed"
  }

  /**
   * The cycle on the stored text, which may be any string: "Pending" and
   * "Complete" move on, anything else (including "Delayed") becomes "Pending".
   */
  function CycleStatusText(t: string): (r: string)
    ensures t != "Pending" && t != "Complete" ==> r == "Pending"
    ensures r == "Pending" || r == "Complete" || r == "Delayed"
  {
    if t == "Pending" then "Complete" else if t == "Complete" then "Delayed" else "Pending"
  }

  /** On the three valid names the text cycle is the status cycle. */
  lemma CycleTextAgrees(s: ComplianceStatus)
    ensures CycleStatusText(StatusName(s)) == StatusName(CycleStatus(s))
  {
  }

  /** Clicking item `i`: every item with its id takes the next status after item `i`'s. */
  function CycleItem(s: seq<ComplianceItem>, i: nat): (r: seq<ComplianceItem>)
    requires i < |s|
    ensures |r| == |s|
    ensures r[i] == s[i].(status := CycleStatus(s[i].status))
    ensures forall j :: 0 <= j < |s| && s[j].id == s[i].id ==> r[j] == s[j].(status := CycleStatus(s[i].status))
    ensures forall j :: 0 <= j < |s| && s[j].id != s[i].id ==> r[j] == s[j]
  {
    UpdateComplianceStatus(s, s[i].id, CycleStatus(s[i].status))
  }

  predicate UniqueId(s: seq<ComplianceItem>, i: nat)
  {
    i < |s| && forall j :: 0 <= j < |s| && j != i ==> s[j].id != s[i].id
  }

  /** Three clicks on an item with its own id restore the whole checklist. */
  lemma CycleItemThrice(s: seq<ComplianceItem>, i: nat)
    requires UniqueId(s, i)
    ensures CycleItem(CycleItem(CycleItem(s, i), i), i) == s
  {
  }

  predicate IsComplete(c: ComplianceItem) { c.status == Complete }
  predicate IsPending(c: ComplianceItem) { c.status == Pending }
  predicate IsDelayed(c: ComplianceItem) { c.status == Delayed }

  /** The Completed, Pending and Delayed cards count every item exactly once. */
  lemma {:induction false} StatusCountsPartition(s: seq<ComplianceItem>)
    ensures Count(s, IsComplete) + Count(s, IsPending) + Count(s, IsDelayed) == |s|
  {
    if s != [] {
      StatusCountsPartition(s[1..]);
    }
  }

  /** The add form: refused without a requirement or a due date; a new requirement starts Pending. */
  function NewComplianceItem(id: string, item: string, dueDate: string): (r: Option<ComplianceItem>)
    ensures r.Some? <==> item != "" && dueDate != ""
    ensures r.Some? ==> r.value.id == id && r.value.item == item && r.value.dueDate == dueDate && r.value.status == Pending
  {
    if item == "" || dueDate == "" then None else Some(ComplianceItem(id, item, Pending, dueDate))
  }

  /** Adding a requirement raises the Pending count by one and leaves the other two counts alone. */
  lemma AddingRaisesPending(s: seq<ComplianceItem>, id: string, item: string, dueDate: string)
    requires NewComplianceItem(id, item, dueDate).Some?
    ensures var c := NewComplianceItem(id, item, dueDate).value;
      && Count(s + [c], IsPending) == Count(s, IsPending) + 1
      && Count(s + [c], IsComplete) == Count(s, IsComplete)
      && Count(s + [c], IsDelayed) == Count(s, IsDelayed)
  {
    var c := NewComplianceItem(id, item, dueDate).value;
    FilterConcat(s, [c], IsPending);
    FilterConcat(s, [c], IsComplete);
    FilterConcat(s, [c], IsDelayed);
  }
}
