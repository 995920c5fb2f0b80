/** Client records of the synthetic loan portfolio and the rating-to-score
    map that both scripts apply to the environmental and social ratings. */
module Portfolio {

  datatype Option<T> = None | Some(value: T)

  /** An environmental or social risk rating. */
  datatype Rating = Low | Medium | High

  /** Status of a client's Environmental & Social Action Plan (ESAP). */
  datatype Esap = NotStarted | InProgress | Delayed | Closed

  /** The sectors either generator draws from ("Oil & Gas" and "TMT" only in
      esg_risk_project.py, "Textiles" only in esg_analysis.py). */
  datatype Sector =
    | Agribusiness | FinancialServices | Infrastructure | Manufacturing
    | OilAndGas | RenewableEnergy | Tmt | Textiles

  /** One row of the loan tape, with the columns the scoring and the
      summaries read. `exposure` is `Exposure_USD` / `Loan_Amount_USD` in
      whole dollars; `green` is `Green_Tagged` / `Green_Finance_Tag == "Yes"`. */
  datatype Client = Client(
    id: string,
    sector: Sector,
    exposure: nat,
    env: Rating,
    soc: Rating,
    esap: Esap,
    green: bool)

  /** The label a rating carries in the loan tape. */
  function RatingLabel(r: Rating): string {
    match r
    case Low => "Low"
    case Medium => "Medium"
    case High => "High"
  }

  /** The closed rating-to-score map. */
  function Score(r: Rating): (s: nat)
    ensures 1 <= s <= 3
  {
    match r
    case Low => 1
    case Medium => 2
    case High => 3
  }

  /** The ordinal order of the ratings: Low below Medium below High. */
  predicate Below(a: Rating, b: Rating) {
    (a == Low && b != Low) || (a == Medium && b == High)
  }

  /** The `risk_map` dictionary looked up with a label, as `Series.map` does:
      a label the dictionary lacks gets no score (pandas leaves NaN). */
  function RiskMap(tag: string): (score: Option<nat>)
    ensures score.Some? <==> exists r :: RatingLabel(r) == tag
    ensures forall r :: RatingLabel(r) == tag ==> score == Some(Score(r))
  {
    if tag == "High" then assert RatingLabel(High) == tag; Some(3)
    else if tag == "Medium" then assert RatingLabel(Medium) == tag; Some(2)
    else if tag == "Low" then assert RatingLabel(Low) == tag; Some(1)
    else None
  }

  /** The score orders ratings exactly as the ratings are ordered. */
  lemma ScoreStrictlyMonotone(a: Rating, b: Rating)
    ensures Below(a, b) <==> Score(a) < Score(b)
  {
  }

  // Column accessors, passed to the group-by helpers as key and value functions.

  function SectorOf(c: Client): Sector { c.sector }

  function EsapOf(c: Client): Esap { c.esap }

  function GreenOf(c: Client): bool { c.green }

  function ExposureOf(c: Client): nat { c.exposure }

  /** Every status, in the sorted order of its label ("Closed" < "Delayed" <
      "In Progress" < "Not Started"): the order in which `groupby` emits groups. */
  const EsapLabelOrder: seq<Esap> := [Closed, Delayed, InProgress, NotStarted]

  /** Every sector, in the sorted order of its label ("Agribusiness" <
      "Financial Services" < ... < "TMT" < "Textiles"). */
  const SectorLabelOrder: seq<Sector> :=
    [Agribusiness, FinancialServices, Infrastructure, Manufacturing,
     OilAndGas, RenewableEnergy, Tmt, Textiles]

  /** Every status has its place in the label order. */
  lemma AllStatusesListed(s: Esap)
    ensures s in EsapLabelOrder
  {
    match s
    case Closed =>
    case Delayed =>
    case InProgress =>
    case NotStarted =>
  }
}
