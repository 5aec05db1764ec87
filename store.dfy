/**
 * The stateful half of the entity store (context/DataContext.tsx): the
 * `DataProvider`'s seven collections, each overwritten by its setter, and
 * the browser storage they are saved to. Saving, which the source leaves
 * to an effect that runs after every change of a collection, is here the
 * last step of every operation that changes one.
 */
module DataProvider {
  import opened Types
  import opened Seqs
  import opened DataContext

  const StoreKeys: set<string> :=
    {ActivitiesKey, BeneficiariesKey, BudgetKey, ComplianceKey, MetricsKey, LayersKey, ProvinceStatsKey}

  /** The seven keys are pairwise different, so saving one collection never overwrites another. */
  lemma StoreKeysDistinct()
    ensures ActivitiesKey != BeneficiariesKey
    ensures ActivitiesKey != BudgetKey
    ensures ActivitiesKey != ComplianceKey
    ensures ActivitiesKey != MetricsKey
    ensures ActivitiesKey != LayersKey
    ensures ActivitiesKey != ProvinceStatsKey
    ensures BeneficiariesKey != BudgetKey
    ensures BeneficiariesKey != ComplianceKey
    ensures BeneficiariesKey != MetricsKey
    ensures BeneficiariesKey != LayersKey
    ensures BeneficiariesKey != ProvinceStatsKey
    ensures BudgetKey != ComplianceKey
    ensures BudgetKey != MetricsKey
    ensures BudgetKey != LayersKey
    ensures BudgetKey != ProvinceStatsKey
    ensures ComplianceKey != MetricsKey
    ensures ComplianceKey != LayersKey
    ensures ComplianceKey != ProvinceStatsKey
    ensures MetricsKey != LayersKey
    ensures MetricsKey != ProvinceStatsKey
    ensures LayersKey != ProvinceStatsKey
  {
  }

  class Store {
    var activities: seq<Activity>
    var beneficiaries: seq<Beneficiary>
    var budget: seq<BudgetLine>
    var compliance: seq<ComplianceItem>
    var gisMetrics: seq<GISMetric>
    var gisLayers: seq<GISLayer>
    var gisProvinceStats: seq<GISProvinceStat>
    /** The browser's key/value storage, as far as this store has written it. */
    var storage: map<string, Stored>

    /** Every collection is saved under its own key exactly as it is held in memory. */
    predicate Saved()
      reads this
    {
      && ActivitiesKey in storage && storage[ActivitiesKey] == ActivitiesJson(activities)
      && BeneficiariesKey in storage && storage[BeneficiariesKey] == BeneficiariesJson(beneficiaries)
      && BudgetKey in storage && storage[BudgetKey] == BudgetJson(budget)
      && ComplianceKey in storage && storage[ComplianceKey] == ComplianceJson(compliance)
      && MetricsKey in storage && storage[MetricsKey] == MetricsJson(gisMetrics)
      && LayersKey in storage && storage[LayersKey] == LayersJson(gisLayers)
      && ProvinceStatsKey in storage && storage[ProvinceStatsKey] == ProvinceStatsJson(gisProvinceStats)
    }

    /**
     * Initialisation: each collection is loaded from its key, falling back
     * to the empty default collection, and then saved back (the save effects
     * also run once when the provider mounts). Keys of other owners are kept.
     */
    constructor (stored: map<string, Stored>)
      ensures activities == LoadFromStorage(stored, ActivitiesKey, DecodeActivities, []).value
      ensures beneficiaries == LoadFromStorage(stored, BeneficiariesKey, DecodeBeneficiaries, []).value
      ensures budget == LoadFromStorage(stored, BudgetKey, DecodeBudget, []).value
      ensures compliance == LoadFromStorage(stored, ComplianceKey, DecodeCompliance, []).value
      ensures gisMetrics == LoadFromStorage(stored, MetricsKey, DecodeMetrics, []).value
      ensures gisLayers == LoadFromStorage(stored, LayersKey, DecodeLayers, []).value
      ensures gisProvinceStats == LoadFromStorage(stored, ProvinceStatsKey, DecodeProvinceStats, []).value
      ensures Saved()
      ensures forall key :: key in stored && key !in StoreKeys ==> key in storage && storage[key] == stored[key]
    {
      var a := LoadFromStorage(stored, ActivitiesKey, DecodeActivities, []).value;
      var b := LoadFromStorage(stored, BeneficiariesKey, DecodeBeneficiaries, []).value;
      var l := LoadFromStorage(stored, BudgetKey, DecodeBudget, []).value;
      var c := LoadFromStorage(stored, ComplianceKey, DecodeCompliance, []).value;
      var m := LoadFromStorage(stored, MetricsKey, DecodeMetrics, []).value;
      var y := LoadFromStorage(stored, LayersKey, DecodeLayers, []).value;
      var p := LoadFromStorage(stored, ProvinceStatsKey, DecodeProvinceStats, []).value;
      activities, beneficiaries, budget, compliance := a, b, l, c;
      gisMetrics, gisLayers, gisProvinceStats := m, y, p;
      StoreKeysDistinct();
      storage := stored[ActivitiesKey := ActivitiesJson(a)]
                       [BeneficiariesKey := BeneficiariesJson(b)]
                       [BudgetKey := BudgetJson(l)]
                       [ComplianceKey := ComplianceJson(c)]
                       [MetricsKey := MetricsJson(m)]
                       [LayersKey := LayersJson(y)]
                       [ProvinceStatsKey := ProvinceStatsJson(p)];
    }

    /** A fresh load from the saved storage reproduces every collection. */
    lemma ReloadReproduces()
      requires Saved()
      ensures LoadFromStorage(storage, ActivitiesKey, DecodeActivities, []) == FromStorage(activities)
      ensures LoadFromStorage(storage, BeneficiariesKey, DecodeBeneficiaries, []) == FromStorage(beneficiaries)
      ensures LoadFromStorage(storage, BudgetKey, DecodeBudget, []) == FromStorage(budget)
      ensures LoadFromStorage(storage, ComplianceKey, DecodeCompliance, []) == FromStorage(compliance)
      ensures LoadFromStorage(storage, MetricsKey, DecodeMetrics, []) == FromStorage(gisMetrics)
      ensures LoadFromStorage(storage, LayersKey, DecodeLayers, []) == FromStorage(gisLayers)
      ensures LoadFromStorage(storage, ProvinceStatsKey, DecodeProvinceStats, []) == FromStorage(gisProvinceStats)
    {
    }

    // ------------------------------------------------------------ saving

    method SaveActivities()
      modifies this`storage
      ensures storage == old(storage)[ActivitiesKey := ActivitiesJson(activities)]
    {
      storage := storage[ActivitiesKey := ActivitiesJson(activities)];
    }

    method SaveBeneficiaries()
      modifies this`storage
      ensures storage == old(storage)[BeneficiariesKey := BeneficiariesJson(beneficiaries)]
    {
      storage := storage[BeneficiariesKey := BeneficiariesJson(beneficiaries)];
    }

    method SaveBudget()
      modifies this`storage
      ensures storage == old(storage)[BudgetKey := BudgetJson(budget)]
    {
      storage := storage[BudgetKey := BudgetJson(budget)];
    }

    method SaveCompliance()
      modifies this`storage
      ensures storage == old(storage)[ComplianceKey := ComplianceJson(compliance)]
    {
      storage := storage[ComplianceKey := ComplianceJson(compliance)];
    }

    method SaveMetrics()
      modifies this`storage
      ensures storage == old(storage)[MetricsKey := MetricsJson(gisMetrics)]
    {
      storage := storage[MetricsKey := MetricsJson(gisMetrics)];
    }

    method SaveLayers()
      modifies this`storage
      ensures storage == old(storage)[LayersKey := LayersJson(gisLayers)]
    {
      storage := storage[LayersKey := LayersJson(gisLayers)];
    }

    method SaveProvinceStats()
      modifies this`storage
      ensures storage == old(storage)[ProvinceStatsKey := ProvinceStatsJson(gisProvinceStats)]
    {
      storage := storage[ProvinceStatsKey := ProvinceStatsJson(gisProvinceStats)];
    }

    // -------------------------------------------------------- activities

    method AddActivity(a: Activity)
      requires Saved()
      modifies this`activities, this`storage
      ensures activities == old(activities) + [a]
      ensures storage == old(storage)[ActivitiesKey := ActivitiesJson(activities)]
      ensures Saved()
    {
      activities := activities + [a];
      SaveActivities();
    }

    method UpdateActivityStatus(id: string, status: ActivityStatus, progress: int)
      requires Saved()
      modifies this`activities, this`storage
      ensures activities == DataContext.UpdateActivityStatus(old(activities), id, status, progress)
      ensures storage == old(storage)[ActivitiesKey := ActivitiesJson(activities)]
      ensures Saved()
    {
      activities := DataContext.UpdateActivityStatus(activities, id, status, progress);
      SaveActivities();
    }

    method DeleteActivity(id: string)
      requires Saved()
      modifies this`activities, this`storage
      ensures activities == RemoveById(old(activities), ActivityId, id)
      ensures storage == old(storage)[ActivitiesKey := ActivitiesJson(activities)]
      ensures Saved()
    {
      activities := RemoveById(activities, ActivityId, id);
      SaveActivities();
    }

    // ----------------------------------------------------- beneficiaries

    /** The newest registration comes first. */
    method AddBeneficiary(b: Beneficiary)
      requires Saved()
      modifies this`beneficiaries, this`storage
      ensures beneficiaries == [b] + old(beneficiaries)
      ensures storage == old(storage)[BeneficiariesKey := BeneficiariesJson(beneficiaries)]
      ensures Saved()
    {
      beneficiaries := [b] + beneficiaries;
      SaveBeneficiaries();
    }

    method DeleteBeneficiary(id: string)
      requires Saved()
      modifies this`beneficiaries, this`storage
      ensures beneficiaries == RemoveById(old(beneficiaries), BeneficiaryId, id)
      ensures storage == old(storage)[BeneficiariesKey := BeneficiariesJson(beneficiaries)]
      ensures Saved()
    {
      beneficiaries := RemoveById(beneficiaries, BeneficiaryId, id);
      SaveBeneficiaries();
    }

    // ------------------------------------------------------------ budget

    method AddBudgetLine(line: BudgetLine)
      requires Saved()
      modifies this`budget, this`storage
      ensures budget == old(budget) + [line]
      ensures storage == old(storage)[BudgetKey := BudgetJson(budget)]
      ensures Saved()
    {
      budget := budget + [line];
      SaveBudget();
    }

    /** The derived CAD equivalent stays consistent on every line that was consistent. */
    method UpdateBudgetActual(id: string, actualAmount: real)
      requires Saved()
      modifies this`budget, this`storage
      ensures budget == DataContext.UpdateBudgetActual(old(budget), id, actualAmount)
      ensures AllCadConsistent(old(budget)) ==> AllCadConsistent(budget)
      ensures storage == old(storage)[BudgetKey := BudgetJson(budget)]
      ensures Saved()
    {
      budget := DataContext.UpdateBudgetActual(budget, id, actualAmount);
      SaveBudget();
    }

    method DeleteBudgetLine(id: string)
      requires Saved()
      modifies this`budget, this`storage
      ensures budget == RemoveById(old(budget), BudgetLineId, id)
      ensures storage == old(storage)[BudgetKey := BudgetJson(budget)]
      ensures Saved()
    {
      budget := RemoveById(budget, BudgetLineId, id);
      SaveBudget();
    }

    // -------------------------------------------------------- compliance

    method AddComplianceItem(item: ComplianceItem)
      requires Saved()
      modifies this`compliance, this`storage
      ensures compliance == old(compliance) + [item]
      ensures storage == old(storage)[ComplianceKey := ComplianceJson(compliance)]
      ensures Saved()
    {
      compliance := compliance + [item];
      SaveCompliance();
    }

    method UpdateComplianceStatus(id: string, status: ComplianceStatus)
      requires Saved()
      modifies this`compliance, this`storage
      ensures compliance == DataContext.UpdateComplianceStatus(old(compliance), id, status)
      ensures storage == old(storage)[ComplianceKey := ComplianceJson(compliance)]
      ensures Saved()
    {
      compliance := DataContext.UpdateComplianceStatus(compliance, id, status);
      SaveCompliance();
    }

    method DeleteComplianceItem(id: string)
      requires Saved()
      modifies this`compliance, this`storage
      ensures compliance == RemoveById(old(compliance), ComplianceItemId, id)
      ensures storage == old(storage)[ComplianceKey := ComplianceJson(compliance)]
      ensures Saved()
    {
      compliance := RemoveById(compliance, ComplianceItemId, id);
      SaveCompliance();
    }

    // ------------------------------------------------------- GIS metrics

    /** Appends and re-sorts by date: the log is sorted after every addition. */
    method AddGISMetric(m: GISMetric)
      requires Saved()
      modifies this`gisMetrics, this`storage
      ensures gisMetrics == AddMetricSorted(old(gisMetrics), m)
      ensures SortedBy(gisMetrics, MetricKey)
      ensures multiset(gisMetrics) == multiset(old(gisMetrics)) + multiset{m}
      ensures storage == old(storage)[MetricsKey := MetricsJson(gisMetrics)]
      ensures Saved()
    {
      gisMetrics := AddMetricSorted(gisMetrics, m);
      SaveMetrics();
    }

    method DeleteGISMetric(id: string)
      requires Saved()
      modifies this`gisMetrics, this`storage
      ensures gisMetrics == RemoveById(old(gisMetrics), MetricId, id)
      ensures SortedBy(old(gisMetrics), MetricKey) ==> SortedBy(gisMetrics, MetricKey)
      ensures storage == old(storage)[MetricsKey := MetricsJson(gisMetrics)]
      ensures Saved()
    {
      if SortedBy(gisMetrics, MetricKey) {
        DeleteMetricKeepsSorted(gisMetrics, id);
      }
      gisMetrics := RemoveById(gisMetrics, MetricId, id);
      SaveMetrics();
    }

    // -------------------------------------------------------- GIS layers

    method AddGISLayer(layer: GISLayer)
      requires Saved()
      modifies this`gisLayers, this`storage
      ensures gisLayers == old(gisLayers) + [layer]
      ensures storage == old(storage)[LayersKey := LayersJson(gisLayers)]
      ensures Saved()
    {
      gisLayers := gisLayers + [layer];
      SaveLayers();
    }

    method DeleteGISLayer(id: string)
      requires Saved()
      modifies this`gisLayers, this`storage
      ensures gisLayers == RemoveById(old(gisLayers), LayerId, id)
      ensures storage == old(storage)[LayersKey := LayersJson(gisLayers)]
      ensures Saved()
    {
      gisLayers := RemoveById(gisLayers, LayerId, id);
      SaveLayers();
    }

    // ------------------------------------------------ GIS province stats

    /** No check for an existing stat of the same province: duplicates are kept. */
    method AddGISProvinceStat(stat: GISProvinceStat)
      requires Saved()
      modifies this`gisProvinceStats, this`storage
      ensures gisProvinceStats == old(gisProvinceStats) + [stat]
      ensures storage == old(storage)[ProvinceStatsKey := ProvinceStatsJson(gisProvinceStats)]
      ensures Saved()
    {
      gisProvinceStats := gisProvinceStats + [stat];
      SaveProvinceStats();
    }

    method DeleteGISProvinceStat(id: string)
      requires Saved()
      modifies this`gisProvinceStats, this`storage
      ensures gisProvinceStats == RemoveById(old(gisProvinceStats), ProvinceStatId, id)
      ensures storage == old(storage)[ProvinceStatsKey := ProvinceStatsJson(gisProvinceStats)]
      ensures Saved()
    {
      gisProvinceStats := RemoveById(gisProvinceStats, ProvinceStatId, id);
      SaveProvinceStats();
    }
  }
}
