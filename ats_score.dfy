/**
 * The colour and the label the score card shows for a score: three bands split at
 * 40 and 65.
 */
module AtsScoreBadge {
  import AtsScoring
  import ResumeContext

  const Green := "#2E7D32"
  const Orange := "#E65100"
  const DeepRed := "#8B0000"

  /** `getScoreColor` */
  function ScoreColor(s: int): (c: string)
    ensures c == Green <==> s >= 65
    ensures c == Orange <==> 40 <= s < 65
    ensures c == DeepRed <==> s < 40
  {
    if s >= 65 then Green
    else if s >= 40 then Orange
    else DeepRed
  }

  /** `getScoreLabel` */
  function ScoreLabel(s: int): (l: string)
    ensures l == "Strong" <==> s >= 65
    ensures l == "Developing" <==> 40 <= s < 65
    ensures l == "Needs Work" <==> s < 40
  {
    if s >= 65 then "Strong"
    else if s >= 40 then "Developing"
    else "Needs Work"
  }

  /** The position of a label from the lowest band (0) to the highest (2). */
  function LabelRank(l: string): nat {
    if l == "Strong" then 2 else if l == "Developing" then 1 else 0
  }

  /** The colour a label is shown in. */
  function LabelColor(l: string): string {
    if l == "Strong" then Green else if l == "Developing" then Orange else DeepRed
  }

  /** Label and colour always pick the same band. */
  lemma ColorMatchesLabel(s: int)
    ensures ScoreColor(s) == LabelColor(ScoreLabel(s))
  {
  }

  /** A higher score never gets a lower band. */
  lemma BandMonotone(s: int, t: int)
    requires s <= t
    ensures LabelRank(ScoreLabel(s)) <= LabelRank(ScoreLabel(t))
  {
  }

  /** The empty resume is shown as needing work, the sample resume as developing, and
      a full score as strong. */
  lemma ScenarioBands()
    ensures ScoreLabel(AtsScoring.AtsScore(ResumeContext.InitialState).score) == "Needs Work"
    ensures ScoreLabel(AtsScoring.AtsScore(ResumeContext.SampleData).score) == "Developing"
    ensures ScoreColor(AtsScoring.AtsScore(ResumeContext.SampleData).score) == Orange
    ensures ScoreLabel(AtsScoring.MaxScore) == "Strong"
  {
    ResumeContext.InitialStateScore();
    ResumeContext.SampleDataScore();
  }
}
