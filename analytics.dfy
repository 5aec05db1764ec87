/**
 * The GIS Platform Analytics page (pages/Analytics.tsx): the headline
 * figures over the usage log, the log table's order, and the guards and
 * defaults of the three add forms.
 */
module Analytics {
  import opened Wrappers
  import opened Types
  import opened Seqs
  import opened DataContext

  /** "Current active users": the last logged snapshot's figure, 0 for an empty log. */
  function LatestActiveUsers(s: seq<GISMetric>): (r: int)
    ensures s == [] ==> r == 0
  {
    if s == [] then 0 else s[|s| - 1].activeUsers
  }

  /** In a log sorted by date the current active-user figure is that of a snapshot with the latest date. */
  lemma LatestIsLatestDated(s: seq<GISMetric>)
    requires SortedBy(s, MetricKey) && s != []
    ensures exists m :: m in s && LatestActiveUsers(s) == m.activeUsers && forall y :: y in s ==> MetricKey(y) <= MetricKey(m)
  {
    assert s[|s| - 1] in s;
  }

  /** A snapshot dated no earlier than every logged one becomes the current active-user figure. */
  lemma NewestMetricBecomesLatest(s: seq<GISMetric>, m: GISMetric)
    requires SortedBy(s, MetricKey)
    requires forall x :: x in s ==> MetricKey(x) <= MetricKey(m)
    ensures LatestActiveUsers(AddMetricSorted(s, m)) == m.activeUsers
  {
    AddMetricToSorted(s, m);
    InsertLast(s, m, MetricKey);
  }

  function Sessions(m: GISMetric): int { m.sessions }
  function LayersAccessed(m: GISMetric): int { m.layersAccessed }
  function Downloads(m: GISMetric): int { m.downloads }

  function TotalSessions(s: seq<GISMetric>): (r: int)
    ensures s == [] ==> r == 0
    ensures s != [] ==> r == SumInt(s[..|s| - 1], Sessions) + Sessions(s[|s| - 1])
  {
    LastOfSumInt(s, Sessions);
    SumInt(s, Sessions)
  }

  function TotalLayersAccessed(s: seq<GISMetric>): (r: int)
    ensures s == [] ==> r == 0
    ensures s != [] ==> r == SumInt(s[..|s| - 1], LayersAccessed) + LayersAccessed(s[|s| - 1])
  {
    LastOfSumInt(s, LayersAccessed);
    SumInt(s, LayersAccessed)
  }

  function TotalDownloads(s: seq<GISMetric>): (r: int)
    ensures s == [] ==> r == 0
    ensures s != [] ==> r == SumInt(s[..|s| - 1], Downloads) + Downloads(s[|s| - 1])
  {
    LastOfSumInt(s, Downloads);
    SumInt(s, Downloads)
  }

  /** Logging a snapshot, wherever the date sort puts it, adds exactly its figures to the three totals. */
  lemma AddMetricTotals(s: seq<GISMetric>, m: GISMetric)
    ensures TotalSessions(AddMetricSorted(s, m)) == TotalSessions(s) + m.sessions
    ensures TotalLayersAccessed(AddMetricSorted(s, m)) == TotalLayersAccessed(s) + m.layersAccessed
    ensures TotalDownloads(AddMetricSorted(s, m)) == TotalDownloads(s) + m.downloads
  {
    assert [m][1..] == [];
    SumIntSort(s + [m], MetricKey, Sessions);
    SumIntConcat(s, [m], Sessions);
    SumIntSort(s + [m], MetricKey, LayersAccessed);
    SumIntConcat(s, [m], LayersAccessed);
    SumIntSort(s + [m], MetricKey, Downloads);
    SumIntConcat(s, [m], Downloads);
  }

  /** The log table: the collection in reverse order. */
  function LogRows(s: seq<GISMetric>): (r: seq<GISMetric>)
    ensures |r| == |s|
    ensures forall i :: 0 <= i < |s| ==> r[i] == s[|s| - 1 - i]
  {
    Reverse(s)
  }

  /** After any addition the log table lists the newest date first. */
  lemma LogIsNewestFirst(s: seq<GISMetric>, m: GISMetric)
    ensures var rows := LogRows(AddMetricSorted(s, m));
      forall i, j :: 0 <= i < j < |rows| ==> MetricKey(rows[i]) >= MetricKey(rows[j])
  {
  }

  /** The usage-log form: refused without a date; the figures are taken as entered. */
  function NewGISMetric(id: string, date: string, activeUsers: int, sessions: int, layersAccessed: int,
                        downloads: int): (r: Option<GISMetric>)
    ensures r.Some? <==> date != ""
    ensures r.Some? ==>
      && r.value.id == id && r.value.date == date && r.value.activeUsers == activeUsers
      && r.value.sessions == sessions && r.value.layersAccessed == layersAccessed && r.value.downloads == downloads
  {
    if date == "" then None else Some(GISMetric(id, date, activeUsers, sessions, layersAccessed, downloads))
  }

  /**
   * The layer form: refused without a name; an empty type becomes
   * "Point Data" and an empty source "Internal".
   */
  function NewGISLayer(id: string, name: string, layerType: string, source: string, accessCount: int): (r: Option<GISLayer>)
    ensures r.Some? <==> name != ""
    ensures r.Some? ==>
      && r.value.id == id && r.value.name == name && r.value.accessCount == accessCount
      && r.value.layerType == (if layerType == "" then "Point Data" else layerType)
      && r.value.source == (if source == "" then "Internal" else source)
      && r.value.layerType != "" && r.value.source != ""
  {
    if name == "" then None
    else Some(GISLayer(id, name, if layerType == "" then "Point Data" else layerType,
                       if source == "" then "Internal" else source, accessCount))
  }

  /** The province form has no guard: every submission becomes a stat. */
  function NewGISProvinceStat(id: string, province: Province, sessions: int): (r: GISProvinceStat)
    ensures r.id == id && r.province == province && r.sessions == sessions
  {
    GISProvinceStat(id, province, sessions)
  }

  function InProvince(p: Province): GISProvinceStat -> bool { (x: GISProvinceStat) => x.province == p }

  /** A second stat for a province already listed is kept beside the first: duplicates accumulate. */
  lemma ProvinceStatDuplicatesKept(s: seq<GISProvinceStat>, id: string, province: Province, sessions: int)
    ensures Count(s + [NewGISProvinceStat(id, province, sessions)], InProvince(province)) == Count(s, InProvince(province)) + 1
  {
    FilterConcat(s, [NewGISProvinceStat(id, province, sessions)], InProvince(province));
  }
}
