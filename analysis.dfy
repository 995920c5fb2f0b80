/** esg_analysis.py: additive ESG risk scoring, the high-risk flag, the
    sector, action-plan and green-finance summaries, and the report totals. */
module EsgAnalysis {
  import opened Portfolio
  import opened GroupBy

  // ---------------------------------------------------------------------------
  // Scoring and the high-risk flag
  // ---------------------------------------------------------------------------

  /** `Total_ESG_Risk_Score`: the two dimension scores added, so it lies in
      2..6, reaching 2 only for Low/Low and 6 only for High/High. */
  function TotalScore(c: Client): (t: nat)
    ensures 2 <= t <= 6
    ensures t == 2 <==> c.env == Low && c.soc == Low
    ensures t == 6 <==> c.env == High && c.soc == High
  {
    Score(c.env) + Score(c.soc)
  }

  /** `High_Risk_Flag`: a total of at least 5, which is exactly the rating
      pairs High/Medium, Medium/High and High/High. */
  function HighRiskFlag(c: Client): (flagged: bool)
    ensures flagged <==> (c.env == High && c.soc != Low) || (c.soc == High && c.env != Low)
  {
    TotalScore(c) >= 5
  }

  /** Medium/Medium and High/Low both total 4 and are not flagged. */
  lemma FlagBoundary(env: Rating, soc: Rating)
    ensures var c := Client("", Agribusiness, 0, env, soc, Closed, false);
      (env == Medium && soc == Medium) || (env == High && soc == Low) || (env == Low && soc == High)
      ==> TotalScore(c) == 4 && !HighRiskFlag(c)
  {
  }

  /** `(x == "Yes").sum()` counts one per flagged row. */
  function FlagCount(c: Client): nat {
    if HighRiskFlag(c) then 1 else 0
  }

  // ---------------------------------------------------------------------------
  // Report totals
  // ---------------------------------------------------------------------------

  /** `total_val = df['Loan_Amount_USD'].sum()` */
  function TotalVal(cs: seq<Client>): (t: nat)
    ensures forall c :: c in cs ==> c.exposure <= t
  {
    SumAtLeastEach(cs, ExposureOf);
    Sum(cs, ExposureOf)
  }

  /** `high_risk_count`: the number of rows whose flag is "Yes". */
  function HighRiskCount(cs: seq<Client>): (n: nat)
    ensures n <= |cs|
    ensures n == 0 <==> forall c :: c in cs ==> !HighRiskFlag(c)
  {
    var g := Group(cs, HighRiskFlag, true);
    assert g != [] ==> g[0] in g;
    |g|
  }

  /** Counting the flags one by one gives the number of flagged rows. */
  lemma {:induction false} FlagCountSum(cs: seq<Client>)
    ensures Sum(cs, FlagCount) == HighRiskCount(cs)
    ensures HighRiskCount(cs) <= |cs|
  {
    if cs != [] {
      FlagCountSum(cs[1..]);
      GroupCons(cs[0], cs[1..], HighRiskFlag, true);
      assert cs == [cs[0]] + cs[1..];
    }
  }

  // ---------------------------------------------------------------------------
  // Portfolio summary by sector
  // ---------------------------------------------------------------------------

  /** One row of `portfolio_summary`. `Avg_ESG_Risk` is kept as the sum of
      the total scores and the number of clients it is the mean over. */
  datatype SectorRow = SectorRow(
    sector: Sector,
    totalLoanAmount: nat,
    riskScoreSum: nat,
    clients: nat,
    highRiskClients: nat)

  function RowLoan(r: SectorRow): nat { r.totalLoanAmount }
  function RowClients(r: SectorRow): nat { r.clients }
  function RowHighRisk(r: SectorRow): nat { r.highRiskClients }

  lemma {:induction false} ScoreSumBounds(g: seq<Client>)
    ensures 2 * |g| <= Sum(g, TotalScore) <= 6 * |g|
    ensures Sum(g, FlagCount) <= |g|
  {
    if g != [] {
      ScoreSumBounds(g[1..]);
    }
  }

  /** The aggregates of the clients of sector `s`. The mean score lies in
      2..6 and no more clients are high-risk than there are clients. */
  function SectorRowOf(s: Sector, cs: seq<Client>): (row: SectorRow)
    ensures row.sector == s
    ensures 2 * row.clients <= row.riskScoreSum <= 6 * row.clients
    ensures row.highRiskClients <= row.clients
    ensures row.clients > 0 <==> exists c :: c in cs && c.sector == s
  {
    var g := Group(cs, SectorOf, s);
    ScoreSumBounds(g);
    GroupNonEmpty(cs, SectorOf, s);
    SectorRow(s, Sum(g, ExposureOf), Sum(g, TotalScore), |g|, Sum(g, FlagCount))
  }

  /** `Avg_ESG_Risk` of a row, as an exact mean. */
  function AvgEsgRisk(row: SectorRow): (avg: real)
    requires row.clients > 0
    requires 2 * row.clients <= row.riskScoreSum <= 6 * row.clients
    ensures 2.0 <= avg <= 6.0
  {
    var n := row.clients as real;
    var sum := row.riskScoreSum as real;
    MeanBetween(sum, n, 2.0, 6.0);
    sum / n
  }

  /** A total between `lo * n` and `hi * n` has its mean over `n` between `lo` and `hi`. */
  lemma MeanBetween(sum: real, n: real, lo: real, hi: real)
    requires n > 0.0
    requires lo * n <= sum <= hi * n
    ensures lo <= sum / n <= hi
  {
    var avg := sum / n;
    assert avg * n == sum;
  }

  function SectorRows(keys: seq<Sector>, cs: seq<Client>): (rows: seq<SectorRow>)
    ensures |rows| == |keys|
    ensures forall i :: 0 <= i < |keys| ==> rows[i] == SectorRowOf(keys[i], cs)
  {
    if keys == [] then [] else [SectorRowOf(keys[0], cs)] + SectorRows(keys[1..], cs)
  }

  /** `df.groupby("Sector").agg(...).reset_index()`: one row per sector that
      occurs, in label order. */
  function GroupBySector(cs: seq<Client>): (rows: seq<SectorRow>)
    ensures forall i :: 0 <= i < |rows| ==> rows[i] == SectorRowOf(rows[i].sector, cs) && rows[i].clients > 0
  {
    SectorRows(PresentKeys(SectorLabelOrder, cs, SectorOf), cs)
  }

  /** `portfolio_summary`: the sector rows sorted by `Total_Loan_Amount`,
      largest first; a reordering of the grouped rows. */
  function PortfolioSummary(cs: seq<Client>): (rows: seq<SectorRow>)
    ensures NonIncreasing(rows, RowLoan)
    ensures multiset(rows) == multiset(GroupBySector(cs))
  {
    SortDescending(GroupBySector(cs), RowLoan)
  }

  lemma AllSectorsListed(s: Sector)
    ensures s in SectorLabelOrder
  {
    match s
    case Agribusiness =>
    case FinancialServices =>
    case Infrastructure =>
    case Manufacturing =>
    case OilAndGas =>
    case RenewableEnergy =>
    case Tmt =>
    case Textiles =>
  }

  lemma SectorOrderDistinct()
    ensures Distinct(SectorLabelOrder)
  {
  }

  /** Every sector that occurs has a grouped row. */
  lemma GroupBySectorRowsCover(cs: seq<Client>)
    ensures forall c :: c in cs ==> exists r :: r in GroupBySector(cs) && r.sector == c.sector
  {
    var keys := PresentKeys(SectorLabelOrder, cs, SectorOf);
    var rows := GroupBySector(cs);
    forall c | c in cs
      ensures exists r :: r in rows && r.sector == c.sector
    {
      AllSectorsListed(c.sector);
      GroupNonEmpty(cs, SectorOf, c.sector);
      assert c.sector in keys;
      var i :| 0 <= i < |keys| && keys[i] == c.sector;
      assert rows[i] in rows;
    }
  }

  /** No sector is grouped twice. */
  lemma GroupBySectorRowsDistinct(cs: seq<Client>)
    ensures Distinct(GroupBySector(cs))
  {
    var keys := PresentKeys(SectorLabelOrder, cs, SectorOf);
    var rows := GroupBySector(cs);
    SectorOrderDistinct();
    forall i, j | 0 <= i < j < |rows|
      ensures rows[i] != rows[j]
    {
      assert rows[i].sector == keys[i] && rows[j].sector == keys[j];
    }
  }

  /** `portfolio_summary` has one row per sector present in the input: every
      client's sector has a row, every row has clients and holds its own
      sector's aggregates, no row repeats, and the rows come by
      `Total_Loan_Amount`, largest first. */
  lemma PortfolioSummaryRows(cs: seq<Client>)
    ensures NonIncreasing(PortfolioSummary(cs), RowLoan)
    ensures forall r :: r in PortfolioSummary(cs) ==> r == SectorRowOf(r.sector, cs) && r.clients > 0
    ensures forall c :: c in cs ==> exists r :: r in PortfolioSummary(cs) && r.sector == c.sector
    ensures Distinct(PortfolioSummary(cs))
  {
    var rows := PortfolioSummary(cs);
    GroupBySectorRowsDistinct(cs);
    DistinctPermutation(GroupBySector(cs), rows);
    SameMembers(rows, GroupBySector(cs));
    forall r | r in GroupBySector(cs)
      ensures r == SectorRowOf(r.sector, cs) && r.clients > 0
    {
      var i :| 0 <= i < |GroupBySector(cs)| && GroupBySector(cs)[i] == r;
    }
    GroupBySectorRowsCover(cs);
  }

  lemma SameMembers(a: seq<SectorRow>, b: seq<SectorRow>)
    requires multiset(a) == multiset(b)
    ensures forall r :: r in a <==> r in b
  {
    forall r ensures r in a <==> r in b {
      assert r in a <==> r in multiset(a);
      assert r in b <==> r in multiset(b);
    }
  }

  /** Summing a row field over the sector rows sums the matching client
      column over the clients of those sectors. */
  lemma {:induction false} SectorRowsSum(keys: seq<Sector>, cs: seq<Client>, field: SectorRow -> nat, val: Client -> nat)
    requires forall s :: field(SectorRowOf(s, cs)) == Sum(Group(cs, SectorOf, s), val)
    ensures Sum(SectorRows(keys, cs), field) == SumByKey(keys, cs, SectorOf, val)
  {
    if keys != [] {
      SectorRowsSum(keys[1..], cs, field, val);
      assert SectorRows(keys, cs)[1..] == SectorRows(keys[1..], cs);
    }
  }

  lemma SectorColumnTotal(cs: seq<Client>, field: SectorRow -> nat, val: Client -> nat)
    requires forall s :: field(SectorRowOf(s, cs)) == Sum(Group(cs, SectorOf, s), val)
    ensures Sum(PortfolioSummary(cs), field) == Sum(cs, val)
  {
    SumPermutation(PortfolioSummary(cs), GroupBySector(cs), field);
    SectorRowsSum(PresentKeys(SectorLabelOrder, cs, SectorOf), cs, field, val);
    SumByKeyPresent(SectorLabelOrder, cs, SectorOf, val);
    SectorOrderDistinct();
    forall c | c in cs ensures SectorOf(c) in SectorLabelOrder {
      AllSectorsListed(c.sector);
    }
    SumByKeyPartition(SectorLabelOrder, cs, SectorOf, val);
  }

  /** Nothing is lost or counted twice: over the rows of `portfolio_summary`,
      `Total_Loan_Amount` adds up to `total_val`, `High_Risk_Clients` to
      `high_risk_count`, and the client counts to the number of clients. */
  lemma PortfolioSummaryTotals(cs: seq<Client>)
    ensures Sum(PortfolioSummary(cs), RowLoan) == TotalVal(cs)
    ensures Sum(PortfolioSummary(cs), RowHighRisk) == HighRiskCount(cs)
    ensures Sum(PortfolioSummary(cs), RowClients) == |cs|
  {
    SectorColumnTotal(cs, RowLoan, ExposureOf);
    SectorColumnTotal(cs, RowHighRisk, FlagCount);
    FlagCountSum(cs);
    forall s ensures RowClients(SectorRowOf(s, cs)) == Sum(Group(cs, SectorOf, s), One) {
      SumOfOnes(Group(cs, SectorOf, s));
    }
    SectorColumnTotal(cs, RowClients, One);
    SumOfOnes(cs);
  }

  // ---------------------------------------------------------------------------
  // ESAP status counts
  // ---------------------------------------------------------------------------

  /** One row of `esap_status`. */
  datatype StatusCount = StatusCount(status: Esap, numberOfClients: nat)

  function CountOf(r: StatusCount): nat { r.numberOfClients }

  function StatusCounts(keys: seq<Esap>, cs: seq<Client>): (rows: seq<StatusCount>)
    ensures |rows| == |keys|
    ensures forall i :: 0 <= i < |keys| ==> rows[i] == StatusCount(keys[i], |Group(cs, EsapOf, keys[i])|)
  {
    if keys == [] then []
    else [StatusCount(keys[0], |Group(cs, EsapOf, keys[0])|)] + StatusCounts(keys[1..], cs)
  }

  /** `df.groupby("ESAP_Status").size().reset_index(...)` */
  function EsapStatus(cs: seq<Client>): (rows: seq<StatusCount>)
    ensures forall i :: 0 <= i < |rows| ==>
      rows[i].numberOfClients > 0 && rows[i].numberOfClients == |Group(cs, EsapOf, rows[i].status)|
    ensures forall i, j :: 0 <= i < j < |rows| ==> rows[i].status != rows[j].status
  {
    assert Distinct(EsapLabelOrder);
    StatusCounts(PresentKeys(EsapLabelOrder, cs, EsapOf), cs)
  }

  lemma {:induction false} StatusCountsSum(keys: seq<Esap>, cs: seq<Client>)
    ensures Sum(StatusCounts(keys, cs), CountOf) == SumByKey(keys, cs, EsapOf, One)
  {
    if keys != [] {
      StatusCountsSum(keys[1..], cs);
      assert StatusCounts(keys, cs)[1..] == StatusCounts(keys[1..], cs);
      SumOfOnes(Group(cs, EsapOf, keys[0]));
    }
  }

  /** Every status that occurs has a row in `esap_status`. */
  lemma EsapStatusCover(cs: seq<Client>)
    ensures forall c :: c in cs ==> exists r :: r in EsapStatus(cs) && r.status == c.esap
  {
    var keys := PresentKeys(EsapLabelOrder, cs, EsapOf);
    var rows := EsapStatus(cs);
    forall c | c in cs
      ensures exists r :: r in rows && r.status == c.esap
    {
      AllStatusesListed(c.esap);
      GroupNonEmpty(cs, EsapOf, c.esap);
      assert c.esap in keys;
      var i :| 0 <= i < |keys| && keys[i] == c.esap;
      assert rows[i] in rows;
    }
  }

  /** The counts of `esap_status` add up to the number of clients. */
  lemma EsapStatusTotal(cs: seq<Client>)
    ensures Sum(EsapStatus(cs), CountOf) == |cs|
  {
    var keys := PresentKeys(EsapLabelOrder, cs, EsapOf);
    assert Distinct(EsapLabelOrder);
    StatusCountsSum(keys, cs);
    SumByKeyPresent(EsapLabelOrder, cs, EsapOf, One);
    forall c | c in cs ensures EsapOf(c) in EsapLabelOrder {
      AllStatusesListed(c.esap);
    }
    SumByKeyPartition(EsapLabelOrder, cs, EsapOf, One);
    SumOfOnes(cs);
  }

  // ---------------------------------------------------------------------------
  // Green finance overview
  // ---------------------------------------------------------------------------

  /** One row of `green_finance`; `tag` is `Green_Finance_Tag == "Yes"`. */
  datatype GreenRow = GreenRow(tag: bool, clients: nat, loanBook: nat)

  function GreenClients(r: GreenRow): nat { r.clients }
  function GreenLoans(r: GreenRow): nat { r.loanBook }

  /** The tags in label order, "No" before "Yes". */
  const GreenLabelOrder: seq<bool> := [false, true]

  function GreenRowOf(t: bool, cs: seq<Client>): GreenRow {
    var g := Group(cs, GreenOf, t);
    GreenRow(t, |g|, Sum(g, ExposureOf))
  }

  function GreenRows(keys: seq<bool>, cs: seq<Client>): (rows: seq<GreenRow>)
    ensures |rows| == |keys|
    ensures forall i :: 0 <= i < |keys| ==> rows[i] == GreenRowOf(keys[i], cs)
  {
    if keys == [] then [] else [GreenRowOf(keys[0], cs)] + GreenRows(keys[1..], cs)
  }

  /** `green_finance`: client count and loan book per tag that occurs. */
  function GreenFinance(cs: seq<Client>): (rows: seq<GreenRow>)
    ensures forall i :: 0 <= i < |rows| ==> rows[i] == GreenRowOf(rows[i].tag, cs) && rows[i].clients > 0
    ensures forall i, j :: 0 <= i < j < |rows| ==> rows[i].tag != rows[j].tag
  {
    assert Distinct(GreenLabelOrder);
    GreenRows(PresentKeys(GreenLabelOrder, cs, GreenOf), cs)
  }

  /** `green_book`: the `Loan_Book` of the "Yes" row when there is one, else 0. */
  function GreenBook(rows: seq<GreenRow>): (book: nat)
    ensures (forall i :: 0 <= i < |rows| ==> !rows[i].tag) ==> book == 0
    ensures (exists i :: 0 <= i < |rows| && rows[i].tag)
      ==> exists i :: 0 <= i < |rows| && rows[i].tag && book == rows[i].loanBook
  {
    if rows == [] then 0
    else if rows[0].tag then rows[0].loanBook
    else GreenBook(rows[1..])
  }

  lemma {:induction false} GreenRowsSum(keys: seq<bool>, cs: seq<Client>)
    ensures Sum(GreenRows(keys, cs), GreenLoans) == SumByKey(keys, cs, GreenOf, ExposureOf)
    ensures Sum(GreenRows(keys, cs), GreenClients) == SumByKey(keys, cs, GreenOf, One)
  {
    if keys != [] {
      GreenRowsSum(keys[1..], cs);
      assert GreenRows(keys, cs)[1..] == GreenRows(keys[1..], cs);
      SumOfOnes(Group(cs, GreenOf, keys[0]));
    }
  }

  /** Over the rows of `green_finance` the client counts add up to the number
      of clients and the loan books to `total_val`. */
  lemma GreenFinanceTotals(cs: seq<Client>)
    ensures Sum(GreenFinance(cs), GreenClients) == |cs|
    ensures Sum(GreenFinance(cs), GreenLoans) == TotalVal(cs)
  {
    var keys := PresentKeys(GreenLabelOrder, cs, GreenOf);
    assert Distinct(GreenLabelOrder);
    GreenRowsSum(keys, cs);
    SumByKeyPresent(GreenLabelOrder, cs, GreenOf, ExposureOf);
    SumByKeyPresent(GreenLabelOrder, cs, GreenOf, One);
    assert forall c :: c in cs ==> GreenOf(c) in GreenLabelOrder;
    SumByKeyPartition(GreenLabelOrder, cs, GreenOf, ExposureOf);
    SumByKeyPartition(GreenLabelOrder, cs, GreenOf, One);
    SumOfOnes(cs);
  }

  /** `green_book` is the loan book of the green-tagged clients: the "Yes"
      row's `Loan_Book` when some client is tagged, and the default 0 when
      none is (the "Yes" row is then absent). */
  lemma GreenBookIsGreenLoans(cs: seq<Client>)
    ensures GreenBook(GreenFinance(cs)) == Sum(Group(cs, GreenOf, true), ExposureOf)
    ensures (forall c :: c in cs ==> !c.green) ==> GreenBook(GreenFinance(cs)) == 0
  {
    var keys := PresentKeys(GreenLabelOrder, cs, GreenOf);
    var rows := GreenFinance(cs);
    GroupNonEmpty(cs, GreenOf, true);
    GroupNonEmpty(cs, GreenOf, false);
    if Group(cs, GreenOf, false) != [] {
      assert keys[0] == false;
      assert rows[1..] == GreenRows(keys[1..], cs);
    }
  }

  // ---------------------------------------------------------------------------
  // Order independence
  // ---------------------------------------------------------------------------

  lemma {:induction false} SectorRowsPermutation(keys: seq<Sector>, a: seq<Client>, b: seq<Client>)
    requires multiset(a) == multiset(b)
    ensures SectorRows(keys, a) == SectorRows(keys, b)
  {
    if keys != [] {
      SectorRowsPermutation(keys[1..], a, b);
      var ga := Group(a, SectorOf, keys[0]);
      var gb := Group(b, SectorOf, keys[0]);
      GroupPermutation(a, b, SectorOf, keys[0]);
      SumPermutation(ga, gb, ExposureOf);
      SumPermutation(ga, gb, TotalScore);
      SumPermutation(ga, gb, FlagCount);
      assert |multiset(ga)| == |multiset(gb)|;
    }
  }

  lemma {:induction false} StatusCountsPermutation(keys: seq<Esap>, a: seq<Client>, b: seq<Client>)
    requires multiset(a) == multiset(b)
    ensures StatusCounts(keys, a) == StatusCounts(keys, b)
  {
    if keys != [] {
      StatusCountsPermutation(keys[1..], a, b);
      GroupSumPermutation(a, b, EsapOf, keys[0], One);
    }
  }

  lemma {:induction false} GreenRowsPermutation(keys: seq<bool>, a: seq<Client>, b: seq<Client>)
    requires multiset(a) == multiset(b)
    ensures GreenRows(keys, a) == GreenRows(keys, b)
  {
    if keys != [] {
      GreenRowsPermutation(keys[1..], a, b);
      GroupSumPermutation(a, b, GreenOf, keys[0], ExposureOf);
    }
  }

  /** Shuffling the loan tape changes none of the tables or totals of the report. */
  lemma AnalysisOrderIndependent(a: seq<Client>, b: seq<Client>)
    requires multiset(a) == multiset(b)
    ensures PortfolioSummary(a) == PortfolioSummary(b)
    ensures EsapStatus(a) == EsapStatus(b)
    ensures GreenFinance(a) == GreenFinance(b)
    ensures TotalVal(a) == TotalVal(b)
    ensures HighRiskCount(a) == HighRiskCount(b)
  {
    PresentKeysPermutation(SectorLabelOrder, a, b, SectorOf);
    SectorRowsPermutation(PresentKeys(SectorLabelOrder, a, SectorOf), a, b);
    PresentKeysPermutation(EsapLabelOrder, a, b, EsapOf);
    StatusCountsPermutation(PresentKeys(EsapLabelOrder, a, EsapOf), a, b);
    PresentKeysPermutation(GreenLabelOrder, a, b, GreenOf);
    GreenRowsPermutation(PresentKeys(GreenLabelOrder, a, GreenOf), a, b);
    SumPermutation(a, b, ExposureOf);
    GroupSumPermutation(a, b, HighRiskFlag, true, ExposureOf);
  }

  // ---------------------------------------------------------------------------
  // The loan tape with its score columns
  // ---------------------------------------------------------------------------

  /** The DataFrame `df` of esg_analysis.py: the client rows, and the score
      columns lines 47, 48, 51 and 54 add to it. `highRiskFlag[i]` is
      `High_Risk_Flag == "Yes"`. */
  class AnalysisFrame {
    const clients: seq<Client>
    var eRiskScore: seq<nat>
    var sRiskScore: seq<nat>
    var totalEsgRiskScore: seq<nat>
    var highRiskFlag: seq<bool>

    /** Every score column has one cell per row, computed by the scoring rules. */
    ghost predicate Scored()
      reads this
    {
      && |eRiskScore| == |sRiskScore| == |totalEsgRiskScore| == |highRiskFlag| == |clients|
      && forall i :: 0 <= i < |clients| ==>
           && eRiskScore[i] == Score(clients[i].env)
           && sRiskScore[i] == Score(clients[i].soc)
           && totalEsgRiskScore[i] == TotalScore(clients[i])
           && highRiskFlag[i] == HighRiskFlag(clients[i])
    }

    /** The generated data, before any score column exists. */
    constructor (clients: seq<Client>)
      ensures this.clients == clients
      ensures eRiskScore == [] && sRiskScore == [] && totalEsgRiskScore == [] && highRiskFlag == []
    {
      this.clients := clients;
      eRiskScore, sRiskScore, totalEsgRiskScore, highRiskFlag := [], [], [], [];
    }

    /** Lines 47, 48, 51 and 54: `E_Risk_Score`, `S_Risk_Score`, their sum
        `Total_ESG_Risk_Score`, and `High_Risk_Flag` (total at least 5). */
    method AddScoreColumns()
      modifies this
      ensures Scored()
    {
      var n := |clients|;
      var e := seq(n, i requires 0 <= i < n => Score(clients[i].env));
      var s := seq(n, i requires 0 <= i < n => Score(clients[i].soc));
      var t := seq(n, i requires 0 <= i < n => e[i] + s[i]);
      var f := seq(n, i requires 0 <= i < n => t[i] >= 5);
      eRiskScore, sRiskScore, totalEsgRiskScore, highRiskFlag := e, s, t, f;
    }

    /** Lines 108–110: `total_val`, `high_risk_count` read off the flag
        column, and `green_book` read off the green-finance table. */
    method ReportTotals() returns (totalVal: nat, highRiskCount: nat, greenBook: nat)
      requires Scored()
      ensures totalVal == TotalVal(clients)
      ensures highRiskCount == HighRiskCount(clients)
      ensures greenBook == Sum(Group(clients, GreenOf, true), ExposureOf)
    {
      MaskMatchesGroup(clients, highRiskFlag, HighRiskFlag, ExposureOf);
      GreenBookIsGreenLoans(clients);
      totalVal := Sum(clients, ExposureOf);
      highRiskCount := CountTrue(highRiskFlag);
      greenBook := GreenBook(GreenFinance(clients));
    }
  }
}
