/** A concrete input on which `failed_compliance` of esg_risk_project.py,
    as written, is NaN while the watchlist it should match is not empty. */
module RiskComplianceFinding {
  import opened Portfolio
  import opened EsgRiskProject

  /** One Oil & Gas client rated High with a plan Not Started: it is on the
      watchlist with 100 000 of exposure, yet the written failed_compliance is NaN. */
  lemma FailedComplianceNaNExample()
    ensures var cs := [Client("CL-1000", OilAndGas, 100000, High, Low, NotStarted, false)];
      && Watchlist(cs[0])
      && WatchlistExposure(cs) == 100000
      && FailedComplianceAsWritten(cs) == NaN
      && FailedCompliance(cs) == Num(100000)
  {
    var c := Client("CL-1000", OilAndGas, 100000, High, Low, NotStarted, false);
    var cs := [c];
    assert Watchlist(c);
    assert !HasHighRisk(cs, Delayed);
    assert [c] + [] == cs;
    WatchlistExposureCons(c, []);
    assert WatchlistExposure(cs) == 100000;
  }
}
