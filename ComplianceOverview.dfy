/** The compliance overview: constant statistics for the whole portfolio and
    for each discipline, and the two threshold functions that colour a
    percentage. */
module ComplianceOverview {
  import opened Common

  datatype OverallStats = OverallStats(
    totalProjects: nat,
    compliantProjects: nat,
    inReviewProjects: nat,
    totalChecks: nat,
    passedChecks: nat,
    failedChecks: nat,
    pendingChecks: nat)

  datatype DisciplineStat = DisciplineStat(
    name: string,
    total: nat,
    passed: nat,
    failed: nat,
    pending: nat,
    compliance: nat,
    color: string)

  const Overall := OverallStats(3, 1, 2, 67, 48, 8, 11)

  const Disciplines: seq<DisciplineStat> := [
    DisciplineStat("HVAC Systems", 22, 18, 2, 2, 82, "blue"),
    DisciplineStat("Electrical Systems", 18, 15, 1, 2, 83, "yellow"),
    DisciplineStat("Mechanical Systems", 15, 8, 3, 4, 53, "green"),
    DisciplineStat("Structural Systems", 12, 7, 2, 3, 58, "purple")
  ]

  const GreenText := "text-green-600"
  const YellowText := "text-yellow-600"
  const RedText := "text-red-600"
  const GreenBadge := "bg-green-100 text-green-800 border-green-200"
  const YellowBadge := "bg-yellow-100 text-yellow-800 border-yellow-200"
  const RedBadge := "bg-red-100 text-red-800 border-red-200"

  /** `getComplianceColor`. */
  function GetComplianceColor(percentage: int): string
  {
    if percentage >= 80 then GreenText
    else if percentage >= 60 then YellowText
    else RedText
  }

  /** `getComplianceBadge`. */
  function GetComplianceBadge(percentage: int): string
  {
    if percentage >= 80 then GreenBadge
    else if percentage >= 60 then YellowBadge
    else RedBadge
  }

  /** The three bands, best first. */
  datatype Band = Green | Yellow | Red

  /** The rank of a band: 0 is best. */
  function Rank(b: Band): nat
  {
    match b
    case Green => 0
    case Yellow => 1
    case Red => 2
  }

  /** Which band a colour class stands for. */
  function ColorBand(cls: string): Option<Band>
  {
    if cls == GreenText then Some(Green)
    else if cls == YellowText then Some(Yellow)
    else if cls == RedText then Some(Red)
    else None
  }

  /** Which band a badge class stands for. */
  function BadgeBand(cls: string): Option<Band>
  {
    if cls == GreenBadge then Some(Green)
    else if cls == YellowBadge then Some(Yellow)
    else if cls == RedBadge then Some(Red)
    else None
  }

  /** The reference banding: at least 80 green, 60 to 79 yellow, below 60 red. */
  function BandOf(percentage: int): (b: Band)
    ensures b == Green <==> percentage >= 80
    ensures b == Yellow <==> 60 <= percentage < 80
    ensures b == Red <==> percentage < 60
  {
    if percentage >= 80 then Green else if percentage >= 60 then Yellow else Red
  }

  /** The colour class is always one of the three and stands for the reference band. */
  lemma ColorFollowsBand(percentage: int)
    ensures ColorBand(GetComplianceColor(percentage)) == Some(BandOf(percentage))
  {
  }

  /** The badge class is always one of the three and stands for the reference band. */
  lemma BadgeFollowsBand(percentage: int)
    ensures BadgeBand(GetComplianceBadge(percentage)) == Some(BandOf(percentage))
  {
  }

  /** Colour and badge always show the same band. */
  lemma ColorAndBadgeAgree(percentage: int)
    ensures ColorBand(GetComplianceColor(percentage)) == BadgeBand(GetComplianceBadge(percentage))
  {
    ColorFollowsBand(percentage);
    BadgeFollowsBand(percentage);
  }

  /** A higher percentage never gets a worse band. */
  lemma BandMonotone(p: int, q: int)
    requires p <= q
    ensures Rank(BandOf(q)) <= Rank(BandOf(p))
  {
  }

  function SumTotal(ds: seq<DisciplineStat>): nat
  {
    if ds == [] then 0 else ds[0].total + SumTotal(ds[1..])
  }

  function SumPassed(ds: seq<DisciplineStat>): nat
  {
    if ds == [] then 0 else ds[0].passed + SumPassed(ds[1..])
  }

  function SumFailed(ds: seq<DisciplineStat>): nat
  {
    if ds == [] then 0 else ds[0].failed + SumFailed(ds[1..])
  }

  function SumPending(ds: seq<DisciplineStat>): nat
  {
    if ds == [] then 0 else ds[0].pending + SumPending(ds[1..])
  }

  /** A discipline whose counts add up and whose shown percentage is the rounded pass rate. */
  predicate Consistent(d: DisciplineStat)
  {
    d.total > 0 && d.passed + d.failed + d.pending == d.total
    && d.compliance == RoundedPercent(d.passed, d.total)
  }

  /** In the constant data the counts add up overall and per discipline, the
      disciplines sum to the overall counts, and each shown percentage is the
      rounded pass rate. */
  lemma StatsConsistent()
    ensures Overall.compliantProjects + Overall.inReviewProjects == Overall.totalProjects
    ensures Overall.passedChecks + Overall.failedChecks + Overall.pendingChecks == Overall.totalChecks
    ensures forall k | 0 <= k < |Disciplines| :: Consistent(Disciplines[k])
    ensures SumTotal(Disciplines) == Overall.totalChecks
    ensures SumPassed(Disciplines) == Overall.passedChecks
    ensures SumFailed(Disciplines) == Overall.failedChecks
    ensures SumPending(Disciplines) == Overall.pendingChecks
  {
    var ds := Disciplines;
    assert ds[3..][1..] == [];
    assert ds[2..][1..] == ds[3..];
    assert ds[1..][1..] == ds[2..];
  }

  /** The overall rate shown is 72: 48 of 67 rounded. */
  lemma OverallRate()
    ensures RoundedPercent(Overall.passedChecks, Overall.totalChecks) == 72
    ensures BandOf(72) == Yellow
  {
  }

  /** The discipline bands as shown: HVAC and Electrical green, the other two red. */
  lemma DisciplineBands()
    ensures BandOf(Disciplines[0].compliance) == Green && BandOf(Disciplines[1].compliance) == Green
    ensures BandOf(Disciplines[2].compliance) == Red && BandOf(Disciplines[3].compliance) == Red
  {
  }
}
