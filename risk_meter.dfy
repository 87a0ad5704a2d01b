/** The colour band of the circular risk meter (components/RiskMeter.tsx). */
module RiskMeter {
  import opened Types

  /** getColor: green below 30, amber below 70, red from 70 on. */
  function GetColor(s: int): (t: Tone)
    ensures t == Green <==> s < 30
    ensures t == Amber <==> 30 <= s < 70
    ensures t == Red <==> s >= 70
  {
    if s < 30 then Green
    else if s < 70 then Amber
    else Red
  }

  /** A higher score never gets a less alarming band. */
  lemma GetColorMonotone(s: int, u: int)
    requires s <= u
    ensures Severity(GetColor(s)) <= Severity(GetColor(u))
  {
  }
}
