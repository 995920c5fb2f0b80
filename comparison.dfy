/** The two scripts' scoring policies side by side: the worst-dimension
    score of esg_risk_project.py and the additive score of esg_analysis.py. */
module ScoringComparison {
  import opened Portfolio
  import EsgRiskProject
  import EsgAnalysis

  /** Every client the additive rule flags has a High in some dimension, so
      it also has the highest worst-dimension score; the converse fails for
      High/Low, which the additive rule lets through at a total of 4. */
  lemma AdditiveFlagWithinMaxHigh(c: Client)
    ensures EsgAnalysis.HighRiskFlag(c) ==> EsgRiskProject.MaxRiskScore(c) == 3
    ensures c.env == High && c.soc == Low
      ==> EsgRiskProject.MaxRiskScore(c) == 3 && !EsgAnalysis.HighRiskFlag(c)
  {
  }

  /** Three records: High/Low with the plan Not Started, Medium/Medium
      Closed, and Low/Low Delayed. The additive rule at a threshold of 5
      flags none of them (their totals are 4, 4 and 2); the worst-dimension
      rule gives the first one score 3 and puts it, alone, on the watchlist. */
  lemma ThreeRecordScenario()
    ensures var r1 := Client("1", Agribusiness, 0, High, Low, NotStarted, false);
      var r2 := Client("2", Agribusiness, 0, Medium, Medium, Closed, false);
      var r3 := Client("3", Agribusiness, 0, Low, Low, Delayed, false);
      && EsgAnalysis.TotalScore(r1) == 4 && EsgAnalysis.TotalScore(r2) == 4 && EsgAnalysis.TotalScore(r3) == 2
      && !EsgAnalysis.HighRiskFlag(r1) && !EsgAnalysis.HighRiskFlag(r2) && !EsgAnalysis.HighRiskFlag(r3)
      && EsgRiskProject.MaxRiskScore(r1) == 3
      && EsgRiskProject.MaxRiskScore(r2) == 2 && EsgRiskProject.MaxRiskScore(r3) == 1
      && EsgRiskProject.Watchlist(r1) && !EsgRiskProject.Watchlist(r2) && !EsgRiskProject.Watchlist(r3)
  {
  }
}
