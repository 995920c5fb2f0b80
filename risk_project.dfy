/** esg_risk_project.py: non-compensatory (maximum) risk scoring, the
    watchlist, the high-risk exposure per action-plan status reindexed to
    a fixed order, and the executive-summary totals. */
module EsgRiskProject {
  import opened Portfolio
  import opened GroupBy

  // ---------------------------------------------------------------------------
  // Scoring and watchlist
  // ---------------------------------------------------------------------------

  /** `Max_Risk_Score`: the worse of the two dimension scores, so a High in
      one dimension is never masked by the other. */
  function MaxRiskScore(c: Client): (s: nat)
    ensures s >= Score(c.env) && s >= Score(c.soc)
    ensures s == Score(c.env) || s == Score(c.soc)
    ensures 1 <= s <= 3
    ensures s == 3 <==> c.env == High || c.soc == High
  {
    if Score(c.env) >= Score(c.soc) then Score(c.env) else Score(c.soc)
  }

  /** An action plan that is late or has not begun. */
  predicate Stalled(s: Esap) {
    s == Delayed || s == NotStarted
  }

  /** `Watchlist`: the highest risk score together with a stalled action plan. */
  function Watchlist(c: Client): (flagged: bool)
    ensures flagged <==> (c.env == High || c.soc == High) && (c.esap == Delayed || c.esap == NotStarted)
  {
    MaxRiskScore(c) == 3 && Stalled(c.esap)
  }

  /** `high_risk_only`: the clients whose maximum score is 3, in input order. */
  function HighRiskOnly(cs: seq<Client>): (hr: seq<Client>)
    ensures forall c :: c in hr <==> c in cs && (c.env == High || c.soc == High)
  {
    Group(cs, MaxRiskScore, 3)
  }

  /** Some client of score 3 has action-plan status `s`. */
  predicate HasHighRisk(cs: seq<Client>, s: Esap) {
    exists c :: c in cs && MaxRiskScore(c) == 3 && c.esap == s
  }

  /** The exposure of the clients of score 3 with status `s`. */
  function HighRiskExposure(cs: seq<Client>, s: Esap): nat {
    Sum(Group(HighRiskOnly(cs), EsapOf, s), ExposureOf)
  }

  /** `df[df['Watchlist']]['Exposure_USD'].sum()` */
  function WatchlistExposure(cs: seq<Client>): (e: nat)
    ensures e <= Sum(cs, ExposureOf)
    ensures (forall c :: c in cs ==> !Watchlist(c)) ==> e == 0
  {
    var g := Group(cs, Watchlist, true);
    GroupSumAtMost(cs, Watchlist, true, ExposureOf);
    assert g != [] ==> g[0] in g;
    Sum(g, ExposureOf)
  }

  /** `df['Watchlist'].sum()`: the number of watchlisted rows. */
  function WatchlistCount(cs: seq<Client>): (n: nat)
    ensures n <= |cs|
    ensures n == 0 <==> forall c :: c in cs ==> !Watchlist(c)
  {
    var g := Group(cs, Watchlist, true);
    assert g != [] ==> g[0] in g;
    |g|
  }

  /** Every watchlisted client is in `high_risk_only`, so there are no more
      watchlisted clients than high-risk ones, and no more of those than clients. */
  lemma {:induction false} WatchlistWithinHighRisk(cs: seq<Client>)
    ensures forall c :: c in cs && Watchlist(c) ==> c in HighRiskOnly(cs)
    ensures WatchlistCount(cs) <= |HighRiskOnly(cs)| <= |cs|
  {
    if cs != [] {
      var c := cs[0];
      assert cs == [c] + cs[1..];
      WatchlistWithinHighRisk(cs[1..]);
      GroupCons(c, cs[1..], Watchlist, true);
      GroupCons(c, cs[1..], MaxRiskScore, 3);
    }
  }

  lemma HighRiskExposureCons(c: Client, rest: seq<Client>, s: Esap)
    ensures HighRiskExposure([c] + rest, s)
         == (if MaxRiskScore(c) == 3 && c.esap == s then c.exposure else 0) + HighRiskExposure(rest, s)
  {
    GroupCons(c, rest, MaxRiskScore, 3);
    var hr := Group(rest, MaxRiskScore, 3);
    if MaxRiskScore(c) == 3 {
      assert HighRiskOnly([c] + rest) == [c] + hr;
      GroupCons(c, hr, EsapOf, s);
      if c.esap == s {
        SumCons(c, Group(hr, EsapOf, s), ExposureOf);
      } else {
        assert [] + Group(hr, EsapOf, s) == Group(hr, EsapOf, s);
      }
    } else {
      assert HighRiskOnly([c] + rest) == hr;
    }
  }

  lemma WatchlistExposureCons(c: Client, rest: seq<Client>)
    ensures WatchlistExposure([c] + rest)
         == (if Watchlist(c) then c.exposure else 0) + WatchlistExposure(rest)
  {
    GroupCons(c, rest, Watchlist, true);
    var w := Group(rest, Watchlist, true);
    if Watchlist(c) {
      SumCons(c, w, ExposureOf);
    } else {
      assert [] + w == w;
    }
  }

  /** The watchlist exposure is the high-risk exposure of the two stalled statuses. */
  lemma {:induction false} WatchlistSplit(cs: seq<Client>)
    ensures WatchlistExposure(cs) == HighRiskExposure(cs, Delayed) + HighRiskExposure(cs, NotStarted)
  {
    if cs != [] {
      var c := cs[0];
      var rest := cs[1..];
      assert cs == [c] + rest;
      WatchlistSplit(rest);
      WatchlistExposureCons(c, rest);
      HighRiskExposureCons(c, rest, Delayed);
      HighRiskExposureCons(c, rest, NotStarted);
    }
  }

  // ---------------------------------------------------------------------------
  // The ESAP bottleneck summary
  // ---------------------------------------------------------------------------

  /** A float cell of a pandas Series: `NaN` marks a missing value. */
  datatype Value = NaN | Num(amount: nat)

  /** One row of a Series indexed by action-plan status. */
  datatype Entry = Entry(status: Esap, value: Value)

  /** The groupby sums for the statuses `keys`, in that order. */
  function StatusSums(keys: seq<Esap>, hr: seq<Client>): (series: seq<Entry>)
    ensures |series| == |keys|
    ensures forall i :: 0 <= i < |keys| ==> series[i] == Entry(keys[i], Num(Sum(Group(hr, EsapOf, keys[i]), ExposureOf)))
  {
    if keys == [] then []
    else [Entry(keys[0], Num(Sum(Group(hr, EsapOf, keys[0]), ExposureOf)))] + StatusSums(keys[1..], hr)
  }

  /** `esap_summary` as grouped: `high_risk_only.groupby('ESAP_Status')['Exposure_USD'].sum()`,
      one entry per status that occurs among the score-3 clients. */
  function EsapSummary(cs: seq<Client>): (series: seq<Entry>)
    ensures forall i :: 0 <= i < |series| ==>
      Group(HighRiskOnly(cs), EsapOf, series[i].status) != [] && series[i].value == Num(HighRiskExposure(cs, series[i].status))
    ensures forall i, j :: 0 <= i < j < |series| ==> series[i].status != series[j].status
  {
    var hr := HighRiskOnly(cs);
    EsapOrdersDistinct();
    StatusSums(PresentKeys(EsapLabelOrder, hr, EsapOf), hr)
  }

  /** Index lookup: the value of the first entry labelled `k`, if any. */
  function Lookup(series: seq<Entry>, k: Esap): (r: Option<Value>)
    ensures r.None? <==> forall i :: 0 <= i < |series| ==> series[i].status != k
    ensures r.Some? ==> exists i :: 0 <= i < |series| && series[i].status == k && series[i].value == r.value
  {
    if series == [] then None
    else if series[0].status == k then Some(series[0].value)
    else Lookup(series[1..], k)
  }

  /** The value `reindex` gives label `k`: the stored one, or NaN. */
  function ReindexValue(series: seq<Entry>, k: Esap): Value {
    match Lookup(series, k)
    case Some(v) => v
    case None => NaN
  }

  /** `series.reindex(order)`: one entry per label of `order`, in that order. */
  function Reindex(series: seq<Entry>, order: seq<Esap>): (r: seq<Entry>)
    ensures |r| == |order|
    ensures forall i :: 0 <= i < |r| ==> r[i] == Entry(order[i], ReindexValue(series, order[i]))
  {
    if order == [] then []
    else [Entry(order[0], ReindexValue(series, order[0]))] + Reindex(series, order[1..])
  }

  /** The execution order the chart's axis uses. */
  const ExecutionOrder: seq<Esap> := [Closed, Delayed, InProgress, NotStarted]

  /** `esap_summary` after `reindex(['Closed', 'Delayed', 'In Progress', 'Not Started'])`. */
  function ReindexedSummary(cs: seq<Client>): (r: seq<Entry>)
    ensures |r| == 4
    ensures forall i :: 0 <= i < 4 ==> r[i].status == ExecutionOrder[i]
  {
    Reindex(EsapSummary(cs), ExecutionOrder)
  }

  /** `series.sum()`: NaN entries are skipped. */
  function SeriesSum(series: seq<Entry>): nat {
    if series == [] then 0
    else (match series[0].value case Num(a) => a case NaN => 0) + SeriesSum(series[1..])
  }

  /** `series.get(k, default)`: the value at label `k` when the index has
      that label (NaN included), otherwise `default`. */
  function Get(series: seq<Entry>, k: Esap, default: nat): (v: Value)
    ensures (forall i :: 0 <= i < |series| ==> series[i].status != k) ==> v == Num(default)
    ensures (exists i :: 0 <= i < |series| && series[i].status == k)
      ==> exists i :: 0 <= i < |series| && series[i].status == k && v == series[i].value
  {
    match Lookup(series, k)
    case Some(v) => v
    case None => Num(default)
  }

  /** `series.fillna(fill)` */
  function FillNa(series: seq<Entry>, fill: nat): (r: seq<Entry>)
    ensures |r| == |series|
    ensures forall i :: 0 <= i < |r| ==>
      && r[i].status == series[i].status
      && r[i].value != NaN
      && (series[i].value != NaN ==> r[i].value == series[i].value)
      && (series[i].value == NaN ==> r[i].value == Num(fill))
  {
    if series == [] then []
    else
      var e := series[0];
      [if e.value == NaN then Entry(e.status, Num(fill)) else e] + FillNa(series[1..], fill)
  }

  /** Float addition: NaN absorbs the other operand. */
  function Add(a: Value, b: Value): (r: Value)
    ensures r != NaN <==> a != NaN && b != NaN
    ensures r != NaN ==> r.amount == a.amount + b.amount
  {
    if a.Num? && b.Num? then Num(a.amount + b.amount) else NaN
  }

  lemma EsapOrdersDistinct()
    ensures Distinct(EsapLabelOrder) && Distinct(ExecutionOrder)
  {
  }

  /** Without a score-3 client of status `s` the status contributes nothing. */
  lemma {:induction false} AbsentStatusIsZero(cs: seq<Client>, s: Esap)
    ensures Group(HighRiskOnly(cs), EsapOf, s) != [] <==> HasHighRisk(cs, s)
    ensures !HasHighRisk(cs, s) ==> HighRiskExposure(cs, s) == 0
  {
    GroupNonEmpty(HighRiskOnly(cs), EsapOf, s);
  }

  lemma {:induction false} StatusSumsLookup(keys: seq<Esap>, hr: seq<Client>, s: Esap)
    requires Distinct(keys)
    ensures Lookup(StatusSums(keys, hr), s)
         == if s in keys then Some(Num(Sum(Group(hr, EsapOf, s), ExposureOf))) else None
  {
    if keys != [] {
      DistinctTail(keys);
      StatusSumsLookup(keys[1..], hr, s);
      var series := StatusSums(keys, hr);
      assert series[1..] == StatusSums(keys[1..], hr);
      assert s in keys <==> s == keys[0] || s in keys[1..];
    }
  }

  /** `esap_summary` holds, for each status, the exposure of the score-3
      clients with that status, and holds no entry for a status no score-3
      client has. */
  lemma EsapSummaryLookup(cs: seq<Client>, s: Esap)
    ensures Lookup(EsapSummary(cs), s)
         == if HasHighRisk(cs, s) then Some(Num(HighRiskExposure(cs, s))) else None
  {
    var hr := HighRiskOnly(cs);
    EsapOrdersDistinct();
    AllStatusesListed(s);
    StatusSumsLookup(PresentKeys(EsapLabelOrder, hr, EsapOf), hr, s);
    AbsentStatusIsZero(cs, s);
  }

  lemma {:induction false} StatusSumsTotal(keys: seq<Esap>, hr: seq<Client>)
    ensures SeriesSum(StatusSums(keys, hr)) == SumByKey(keys, hr, EsapOf, ExposureOf)
  {
    if keys != [] {
      StatusSumsTotal(keys[1..], hr);
      assert StatusSums(keys, hr)[1..] == StatusSums(keys[1..], hr);
    }
  }

  lemma {:induction false} ReindexTotal(cs: seq<Client>, order: seq<Esap>)
    ensures SeriesSum(Reindex(EsapSummary(cs), order)) == SumByKey(order, HighRiskOnly(cs), EsapOf, ExposureOf)
  {
    if order != [] {
      ReindexTotal(cs, order[1..]);
      assert Reindex(EsapSummary(cs), order)[1..] == Reindex(EsapSummary(cs), order[1..]);
      EsapSummaryLookup(cs, order[0]);
      AbsentStatusIsZero(cs, order[0]);
    }
  }

  /** Summed over its statuses, `esap_summary` (before and after the reindex)
      is the total exposure of `high_risk_only`. */
  lemma EsapSummaryTotal(cs: seq<Client>)
    ensures SeriesSum(EsapSummary(cs)) == Sum(HighRiskOnly(cs), ExposureOf)
    ensures SeriesSum(ReindexedSummary(cs)) == Sum(HighRiskOnly(cs), ExposureOf)
  {
    var hr := HighRiskOnly(cs);
    EsapOrdersDistinct();
    forall c | c in hr ensures EsapOf(c) in EsapLabelOrder && EsapOf(c) in ExecutionOrder {
      AllStatusesListed(c.esap);
    }
    StatusSumsTotal(PresentKeys(EsapLabelOrder, hr, EsapOf), hr);
    SumByKeyPresent(EsapLabelOrder, hr, EsapOf, ExposureOf);
    SumByKeyPartition(EsapLabelOrder, hr, EsapOf, ExposureOf);
    ReindexTotal(cs, ExecutionOrder);
    SumByKeyPartition(ExecutionOrder, hr, EsapOf, ExposureOf);
  }

  /** After the reindex the summary has exactly the four statuses in
      execution order; a status with no score-3 client is present with NaN,
      not omitted, and every other status carries its high-risk exposure. */
  lemma ReindexedSummaryShape(cs: seq<Client>)
    ensures |ReindexedSummary(cs)| == 4
    ensures forall i :: 0 <= i < 4 ==> ReindexedSummary(cs)[i].status == ExecutionOrder[i]
    ensures forall i :: 0 <= i < 4 ==>
      ReindexedSummary(cs)[i].value
        == if HasHighRisk(cs, ExecutionOrder[i]) then Num(HighRiskExposure(cs, ExecutionOrder[i])) else NaN
  {
    forall i | 0 <= i < 4
      ensures ReindexedSummary(cs)[i].value
        == if HasHighRisk(cs, ExecutionOrder[i]) then Num(HighRiskExposure(cs, ExecutionOrder[i])) else NaN
    {
      EsapSummaryLookup(cs, ExecutionOrder[i]);
    }
  }

  lemma {:induction false} LookupReindex(series: seq<Entry>, order: seq<Esap>, k: Esap)
    requires k in order
    ensures Lookup(Reindex(series, order), k) == Some(ReindexValue(series, k))
  {
    var r := Reindex(series, order);
    if order[0] != k {
      assert r[1..] == Reindex(series, order[1..]);
      LookupReindex(series, order[1..], k);
    }
  }

  lemma {:induction false} LookupFillNa(series: seq<Entry>, fill: nat, k: Esap)
    ensures Lookup(FillNa(series, fill), k)
         == match Lookup(series, k)
            case Some(NaN) => Some(Num(fill))
            case other => other
  {
    if series != [] {
      assert FillNa(series, fill)[1..] == FillNa(series[1..], fill);
      LookupFillNa(series[1..], fill, k);
    }
  }

  /** `.get(s, 0)` on the reindexed summary: NaN exactly when no score-3
      client has status `s`. */
  lemma GetReindexed(cs: seq<Client>, s: Esap)
    ensures Get(ReindexedSummary(cs), s, 0)
         == if HasHighRisk(cs, s) then Num(HighRiskExposure(cs, s)) else NaN
  {
    AllStatusesListed(s);
    LookupReindex(EsapSummary(cs), ExecutionOrder, s);
    EsapSummaryLookup(cs, s);
  }

  /** `.get(s, 0)` after `fillna(0)`: always the high-risk exposure of `s`. */
  lemma GetFilled(cs: seq<Client>, s: Esap)
    ensures Get(FillNa(ReindexedSummary(cs), 0), s, 0) == Num(HighRiskExposure(cs, s))
  {
    AllStatusesListed(s);
    LookupReindex(EsapSummary(cs), ExecutionOrder, s);
    EsapSummaryLookup(cs, s);
    LookupFillNa(ReindexedSummary(cs), 0, s);
    AbsentStatusIsZero(cs, s);
  }

  // ---------------------------------------------------------------------------
  // failed_compliance
  // ---------------------------------------------------------------------------

  /** The `failed_compliance` expression: `.get(status, 0)` of the two
      stalled statuses, added as floats. A series without NaN always gives a
      number; a NaN in either cell gives NaN. */
  function StalledTotal(summary: seq<Entry>): (t: Value)
    ensures (forall i :: 0 <= i < |summary| ==> summary[i].value != NaN) ==> t != NaN
    ensures t != NaN <==> Get(summary, Delayed, 0) != NaN && Get(summary, NotStarted, 0) != NaN
    ensures t != NaN ==> t.amount == Get(summary, Delayed, 0).amount + Get(summary, NotStarted, 0).amount
  {
    Add(Get(summary, Delayed, 0), Get(summary, NotStarted, 0))
  }

  /** `failed_compliance` as written: read from the REINDEXED summary, where
      a status with no score-3 client is present with NaN, so the default 0
      is never used and the NaN propagates through the sum. It is NaN
      exactly when Delayed or Not Started has no score-3 client, and
      otherwise the watchlist exposure. */
  function FailedComplianceAsWritten(cs: seq<Client>): (r: Value)
    ensures r == NaN <==> !HasHighRisk(cs, Delayed) || !HasHighRisk(cs, NotStarted)
    ensures r != NaN ==> r == Num(WatchlistExposure(cs))
  {
    WrittenTotal(cs);
    StalledTotal(ReindexedSummary(cs))
  }

  lemma WrittenTotal(cs: seq<Client>)
    ensures StalledTotal(ReindexedSummary(cs)) == NaN <==> !HasHighRisk(cs, Delayed) || !HasHighRisk(cs, NotStarted)
    ensures StalledTotal(ReindexedSummary(cs)) != NaN ==> StalledTotal(ReindexedSummary(cs)) == Num(WatchlistExposure(cs))
  {
    GetReindexed(cs, Delayed);
    GetReindexed(cs, NotStarted);
    WatchlistSplit(cs);
    PropagateNaN(ReindexedSummary(cs), HasHighRisk(cs, Delayed), HasHighRisk(cs, NotStarted),
                 HighRiskExposure(cs, Delayed), HighRiskExposure(cs, NotStarted), WatchlistExposure(cs));
  }

  /** When each stalled cell is NaN exactly when its status is missing, the
      stalled total is NaN exactly when one of them is missing. */
  lemma PropagateNaN(summary: seq<Entry>, hasD: bool, hasN: bool, x: nat, y: nat, w: nat)
    requires Get(summary, Delayed, 0) == if hasD then Num(x) else NaN
    requires Get(summary, NotStarted, 0) == if hasN then Num(y) else NaN
    requires w == x + y
    ensures StalledTotal(summary) == NaN <==> !hasD || !hasN
    ensures StalledTotal(summary) != NaN ==> StalledTotal(summary) == Num(w)
  {
  }

  /** `failed_compliance` as intended: a missing status counts as 0
      (`fillna(0)` before the `.get`). It is the watchlist exposure. */
  function FailedCompliance(cs: seq<Client>): (total: Value)
    ensures total == Num(WatchlistExposure(cs))
  {
    FilledTotal(cs);
    StalledTotal(FillNa(ReindexedSummary(cs), 0))
  }

  lemma FilledTotal(cs: seq<Client>)
    ensures StalledTotal(FillNa(ReindexedSummary(cs), 0)) == Num(WatchlistExposure(cs))
  {
    GetFilled(cs, Delayed);
    GetFilled(cs, NotStarted);
    WatchlistSplit(cs);
    PropagateNaN(FillNa(ReindexedSummary(cs), 0), true, true,
                 HighRiskExposure(cs, Delayed), HighRiskExposure(cs, NotStarted), WatchlistExposure(cs));
  }

  // ---------------------------------------------------------------------------
  // Order independence
  // ---------------------------------------------------------------------------

  lemma {:induction false} StatusSumsPermutation(keys: seq<Esap>, a: seq<Client>, b: seq<Client>)
    requires multiset(a) == multiset(b)
    ensures StatusSums(keys, a) == StatusSums(keys, b)
  {
    if keys != [] {
      StatusSumsPermutation(keys[1..], a, b);
      GroupSumPermutation(a, b, EsapOf, keys[0], ExposureOf);
    }
  }

  /** Shuffling the loan tape changes none of the figures of this script. */
  lemma RiskSummaryOrderIndependent(a: seq<Client>, b: seq<Client>)
    requires multiset(a) == multiset(b)
    ensures EsapSummary(a) == EsapSummary(b)
    ensures ReindexedSummary(a) == ReindexedSummary(b)
    ensures WatchlistExposure(a) == WatchlistExposure(b)
    ensures WatchlistCount(a) == WatchlistCount(b)
  {
    GroupPermutation(a, b, MaxRiskScore, 3);
    PresentKeysPermutation(EsapLabelOrder, HighRiskOnly(a), HighRiskOnly(b), EsapOf);
    StatusSumsPermutation(PresentKeys(EsapLabelOrder, HighRiskOnly(a), EsapOf), HighRiskOnly(a), HighRiskOnly(b));
    GroupSumPermutation(a, b, Watchlist, true, ExposureOf);
  }

  // ---------------------------------------------------------------------------
  // The scored loan tape
  // ---------------------------------------------------------------------------

  /** The DataFrame `df` with the columns the scoring adds to it in place. */
  class ScoredTape {
    const clients: seq<Client>
    var eScore: seq<nat>
    var sScore: seq<nat>
    var maxRiskScore: seq<nat>
    var watchlist: seq<bool>

    /** Every score column has one cell per row, computed by the scoring rules. */
    ghost predicate Scored()
      reads this
    {
      && |eScore| == |sScore| == |maxRiskScore| == |watchlist| == |clients|
      && forall i :: 0 <= i < |clients| ==>
           && eScore[i] == Score(clients[i].env)
           && sScore[i] == Score(clients[i].soc)
           && maxRiskScore[i] == MaxRiskScore(clients[i])
           && watchlist[i] == Watchlist(clients[i])
    }

    /** The loan tape as generated, before any score column exists. */
    constructor (clients: seq<Client>)
      ensures this.clients == clients
      ensures eScore == [] && sScore == [] && maxRiskScore == [] && watchlist == []
    {
      this.clients := clients;
      eScore, sScore, maxRiskScore, watchlist := [], [], [], [];
    }

    /** Lines 96, 97, 101 and 105: `E_Score`, `S_Score`, `Max_Risk_Score`
        (the row-wise maximum of the two) and `Watchlist`. */
    method AddScoreColumns()
      modifies this
      ensures Scored()
    {
      var n := |clients|;
      var e := seq(n, i requires 0 <= i < n => Score(clients[i].env));
      var s := seq(n, i requires 0 <= i < n => Score(clients[i].soc));
      var m := seq(n, i requires 0 <= i < n => if e[i] >= s[i] then e[i] else s[i]);
      var w := seq(n, i requires 0 <= i < n => m[i] == 3 && clients[i].esap in {Delayed, NotStarted});
      eScore, sScore, maxRiskScore, watchlist := e, s, m, w;
    }

    /** Lines 259–260: the exposure and the number of rows the `Watchlist`
        column selects. */
    method WatchlistTotals() returns (exposure: nat, count: nat)
      requires Scored()
      ensures exposure == WatchlistExposure(clients)
      ensures count == WatchlistCount(clients)
    {
      MaskMatchesGroup(clients, watchlist, Watchlist, ExposureOf);
      exposure := MaskedSum(clients, watchlist, ExposureOf);
      count := CountTrue(watchlist);
    }
  }
}
