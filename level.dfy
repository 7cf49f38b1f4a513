/** The candidate level shown to the user and stored with the analysis,
    derived from nothing but the resume's page count. */
module Level {

  /** The level for a page count: one page is a fresher, two an intermediate
      candidate, three or more an experienced one; below one page the level
      keeps its initial value, the empty string. */
  function CandidateLevel(pages: int): (level: string)
    ensures level == "Fresher" <==> pages == 1
    ensures level == "Intermediate" <==> pages == 2
    ensures level == "Experienced" <==> pages >= 3
    ensures level == "" <==> pages <= 0
  {
    if pages == 1 then "Fresher"
    else if pages == 2 then "Intermediate"
    else if pages >= 3 then "Experienced"
    else ""
  }

  /** The order of the levels, the unassigned level lowest. */
  function Seniority(level: string): nat {
    if level == "Fresher" then 1
    else if level == "Intermediate" then 2
    else if level == "Experienced" then 3
    else 0
  }

  /** A longer resume never yields a lower level. */
  lemma LevelMonotone(p: int, q: int)
    requires p <= q
    ensures Seniority(CandidateLevel(p)) <= Seniority(CandidateLevel(q))
  {
  }
}
