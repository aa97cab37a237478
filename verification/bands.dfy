/** The match-score bands used for colouring on the matches and applicants pages. */
module Bands {

  datatype Band = High | Mid | Low

  /** At least 90 is high, 80 to 89 is middle, anything lower is low. */
  function BandOf(score: int): (b: Band)
    ensures b == High <==> score >= 90
    ensures b == Mid <==> 80 <= score < 90
    ensures b == Low <==> score < 80
  {
    if score >= 90 then High else if score >= 80 then Mid else Low
  }

  function Rank(b: Band): nat {
    match b
    case High => 2
    case Mid => 1
    case Low => 0
  }

  /** A higher score never lands in a lower band. */
  lemma BandMonotone(s: int, t: int)
    requires s <= t
    ensures Rank(BandOf(s)) <= Rank(BandOf(t))
  {
  }
}
