/**
 * The records and enumerations of the monitoring application (types.ts).
 * Every record carries a caller-supplied string identifier; nothing in the
 * store checks that identifiers are unique.
 */
module Types {
  import opened Wrappers

  datatype Province = Maputo | Sofala | CaboDelgado | Nampula | Gaza
  datatype ActivityStatus = Planned | Ongoing | Completed
  datatype Gender = Female | Male | NonBinary
  datatype Role = Enumerator | Peacebuilder | CivilSociety | Government
  datatype ComplianceStatus = Complete | Pending | Delayed

  /** An optional field absent from the record is `None`. */
  datatype Activity = Activity(
    id: string,
    name: string,
    plannedDate: string,
    actualDate: Option<string>,
    province: Province,
    status: ActivityStatus,
    completionPercentage: int,
    notes: Option<string>)

  datatype Beneficiary = Beneficiary(
    id: string,
    name: string,
    gender: Gender,
    age: int,
    province: Province,
    role: Role,
    activityAttended: string)

  /** Amounts in local currency (MZN); `currencyRate` converts MZN to CAD. */
  datatype BudgetLine = BudgetLine(
    id: string,
    category: string,
    plannedAmount: real,
    actualAmount: real,
    cadEquivalent: real,
    currencyRate: real)

  datatype GISMetric = GISMetric(
    id: string,
    date: string,
    activeUsers: int,
    sessions: int,
    layersAccessed: int,
    downloads: int)

  datatype GISLayer = GISLayer(
    id: string,
    name: string,
    layerType: string,
    source: string,
    accessCount: int)

  datatype GISProvinceStat = GISProvinceStat(
    id: string,
    province: Province,
    sessions: int)

  datatype ComplianceItem = ComplianceItem(
    id: string,
    item: string,
    status: ComplianceStatus,
    dueDate: string)

  // Identifier projections, used as function values by the generic
  // delete-by-id and update-by-id operations.
  function ActivityId(a: Activity): string { a.id }
  function BeneficiaryId(b: Beneficiary): string { b.id }
  function BudgetLineId(b: BudgetLine): string { b.id }
  function ComplianceItemId(c: ComplianceItem): string { c.id }
  function MetricId(m: GISMetric): string { m.id }
  function LayerId(l: GISLayer): string { l.id }
  function ProvinceStatId(p: GISProvinceStat): string { p.id }
}
