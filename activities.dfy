/**
 * The Activity Tracking page (pages/Activities.tsx): the status filter,
 * the progress preset of the status buttons, the form's guard and
 * defaults, and the date each row shows.
 */
module Activities {
  import opened Wrappers
  import opened Types
  import opened Seqs

  /** The filter the list is drawn with: everything, or one status. */
  datatype StatusFilter = All | Only(status: ActivityStatus)

  /** The filters the page's buttons set: All, Ongoing and Completed; no button shows Planned alone. */
  predicate IsButton(f: StatusFilter)
  {
    f.All? || f.status == Ongoing || f.status == Completed
  }

  function HasStatus(status: ActivityStatus): Activity -> bool { (a: Activity) => a.status == status }

  /** The rows shown: all activities, or exactly those of the chosen status, in store order. */
  function FilterActivities(s: seq<Activity>, f: StatusFilter): (r: seq<Activity>)
    ensures f.All? ==> r == s
    ensures f.Only? ==> forall a :: a in r <==> a in s && a.status == f.status
    ensures |r| <= |s|
  {
    match f
    case All => s
    case Only(status) => Filter(s, HasStatus(status))
  }

  /** Filtering keeps store order: an activity added last is shown last, if it is shown at all. */
  lemma FilterKeepsStoreOrder(s: seq<Activity>, a: Activity, f: StatusFilter)
    ensures FilterActivities(s + [a], f)
         == FilterActivities(s, f) + (if f.All? || a.status == f.status then [a] else [])
  {
    if f.Only? {
      FilterConcat(s, [a], HasStatus(f.status));
    }
  }

  /** The filter expression, applied to each of the three statuses, partitions the activities. */
  lemma {:induction false} StatusViewsPartition(s: seq<Activity>)
    ensures |FilterActivities(s, Only(Planned))| + |FilterActivities(s, Only(Ongoing))|
          + |FilterActivities(s, Only(Completed))| == |s|
  {
    if s != [] {
      StatusViewsPartition(s[1..]);
    }
  }

  /**
   * What the buttons can show: the Ongoing and Completed views together
   * miss exactly the planned activities.
   */
  lemma ButtonViewsMissOnlyPlanned(s: seq<Activity>)
    ensures |FilterActivities(s, Only(Ongoing))| + |FilterActivities(s, Only(Completed))|
          + Count(s, HasStatus(Planned)) == |s|
  {
    StatusViewsPartition(s);
  }

  /** A planned activity is listed under a button only when that button is All. */
  lemma PlannedShownOnlyUnderAll(s: seq<Activity>, f: StatusFilter, a: Activity)
    requires IsButton(f) && a in FilterActivities(s, f) && a.status == Planned
    ensures f.All?
  {
  }

  /** The progress a status button presets: a completed activity is at 100, a planned one at 0, an ongoing one half way. */
  function PresetProgress(status: ActivityStatus): (r: int)
    ensures 0 <= r <= 100
    ensures r == 100 <==> status == Completed
    ensures r == 0 <==> status == Planned
    ensures status == Ongoing ==> r == 50
  {
    match status
    case Completed => 100
    case Planned => 0
    case Ongoing => 50
  }

  /**
   * The activity form: refused without a name or a planned date; notes
   * default to the empty text; no actual date yet.
   */
  function NewActivity(id: string, name: string, province: Province, plannedDate: string,
                       status: ActivityStatus, completionPercentage: int, notes: Option<string>): (r: Option<Activity>)
    ensures r.Some? <==> name != "" && plannedDate != ""
    ensures r.Some? ==>
      && r.value.id == id && r.value.name == name && r.value.province == province
      && r.value.plannedDate == plannedDate && r.value.status == status
      && r.value.completionPercentage == completionPercentage
      && r.value.actualDate.None?
      && r.value.notes == Some(if notes.Some? then notes.value else "")
  {
    if name == "" || plannedDate == "" then None
    else Some(Activity(id, name, plannedDate, None, province, status, completionPercentage,
                       Some(if notes.Some? then notes.value else "")))
  }

  /** The date a row shows: the actual date when there is a non-empty one, the planned date otherwise. */
  function DisplayedDate(a: Activity): (r: string)
    ensures a.actualDate.Some? && a.actualDate.value != "" ==> r == a.actualDate.value
    ensures a.actualDate.None? || a.actualDate.value == "" ==> r == a.plannedDate
  {
    if a.actualDate.Some? && a.actualDate.value != "" then a.actualDate.value else a.plannedDate
  }

  /** A newly created activity shows its planned date, never an empty one. */
  lemma NewActivityShowsPlannedDate(id: string, name: string, province: Province, plannedDate: string,
                                    status: ActivityStatus, notes: Option<string>)
    requires NewActivity(id, name, province, plannedDate, status, PresetProgress(status), notes).Some?
    ensures var a := NewActivity(id, name, province, plannedDate, status, PresetProgress(status), notes).value;
      DisplayedDate(a) == plannedDate && DisplayedDate(a) != ""
      && (a.completionPercentage == 100 <==> a.status == Completed)
  {
  }
}
