/** The portfolio health card: three scores, each shown through one of
    three labelings of the same three bands (80 and up, 60 up to 80, below
    60). */
module PortfolioHealth {

  const DiversificationScore: real := 78.0
  const RiskScore: real := 65.0
  const RebalanceScore: real := 82.0

  /** The three bands, best first. */
  datatype Band = Good | Fair | Poor

  /** Reference classification; both boundaries belong to the better band. */
  function BandOf(score: real): (b: Band)
    ensures b == Good <==> score >= 80.0
    ensures b == Fair <==> 60.0 <= score < 80.0
    ensures b == Poor <==> score < 60.0
  {
    if score >= 80.0 then Good else if score >= 60.0 then Fair else Poor
  }

  /** 2 for the best band, 0 for the worst. */
  function Rank(b: Band): nat
  {
    match b
    case Good => 2
    case Fair => 1
    case Poor => 0
  }

  /** `getScoreColor`. */
  function ScoreColor(score: real): (color: string)
    ensures color == (match BandOf(score) case Good => "bg-green-500" case Fair => "bg-yellow-500" case Poor => "bg-red-500")
  {
    if score >= 80.0 then "bg-green-500"
    else if score >= 60.0 then "bg-yellow-500"
    else "bg-red-500"
  }

  /** `getRiskLevel`. */
  function RiskLevel(score: real): (level: string)
    ensures level == (match BandOf(score) case Good => "Low" case Fair => "Moderate" case Poor => "High")
  {
    if score >= 80.0 then "Low"
    else if score >= 60.0 then "Moderate"
    else "High"
  }

  /** `getRebalanceStatus`. */
  function RebalanceStatus(score: real): (status: string)
    ensures status == (match BandOf(score) case Good => "Balanced" case Fair => "Minor Adjustments Needed"
                                            case Poor => "Rebalancing Recommended")
  {
    if score >= 80.0 then "Balanced"
    else if score >= 60.0 then "Minor Adjustments Needed"
    else "Rebalancing Recommended"
  }

  /** The three labelings always name the same band: each label of one
      determines the label of the others. */
  lemma LabelingsAgree(score: real)
    ensures ScoreColor(score) == "bg-green-500" <==> RiskLevel(score) == "Low"
    ensures RiskLevel(score) == "Low" <==> RebalanceStatus(score) == "Balanced"
    ensures ScoreColor(score) == "bg-yellow-500" <==> RiskLevel(score) == "Moderate"
    ensures RiskLevel(score) == "Moderate" <==> RebalanceStatus(score) == "Minor Adjustments Needed"
    ensures ScoreColor(score) == "bg-red-500" <==> RiskLevel(score) == "High"
    ensures RiskLevel(score) == "High" <==> RebalanceStatus(score) == "Rebalancing Recommended"
  {
  }

  /** Raising a score never moves it to a worse band. */
  lemma RaisingNeverWorsens(score: real, higher: real)
    requires score <= higher
    ensures Rank(BandOf(score)) <= Rank(BandOf(higher))
    ensures ScoreColor(score) == "bg-green-500" ==> ScoreColor(higher) == "bg-green-500"
    ensures ScoreColor(higher) == "bg-red-500" ==> ScoreColor(score) == "bg-red-500"
  {
  }

  /** The boundaries belong to the better band. */
  lemma BoundariesInclusive()
    ensures ScoreColor(80.0) == "bg-green-500" && ScoreColor(60.0) == "bg-yellow-500"
    ensures RiskLevel(80.0) == "Low" && RiskLevel(60.0) == "Moderate"
    ensures RebalanceStatus(80.0) == "Balanced" && RebalanceStatus(60.0) == "Minor Adjustments Needed"
  {
  }

  /** The card's sample scores. */
  lemma SampleScores()
    ensures ScoreColor(DiversificationScore) == "bg-yellow-500"
    ensures RiskLevel(RiskScore) == "Moderate"
    ensures RebalanceStatus(RebalanceScore) == "Balanced"
  {
  }
}
