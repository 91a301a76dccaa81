/** The difficulty badge of components/admin/QuestionCard.tsx: a colour and
    a label chosen by the same two thresholds. */
module QuestionCard {

  datatype Colour = Green | Yellow | Red

  /** `getDifficultyColor` (lines 30-34). */
  function DifficultyColour(difficulty: real): (c: Colour)
    ensures c == Green <==> difficulty <= 3.0
    ensures c == Yellow <==> 3.0 < difficulty <= 6.0
    ensures c == Red <==> difficulty > 6.0
  {
    if difficulty <= 3.0 then Green
    else if difficulty <= 6.0 then Yellow
    else Red
  }

  /** `getDifficultyLabel` (lines 36-40). */
  function DifficultyLabel(difficulty: real): (text: string)
    ensures text == "Kolay" <==> difficulty <= 3.0
    ensures text == "Orta" <==> 3.0 < difficulty <= 6.0
    ensures text == "Zor" <==> difficulty > 6.0
  {
    if difficulty <= 3.0 then "Kolay"
    else if difficulty <= 6.0 then "Orta"
    else "Zor"
  }

  /** The band a colour stands for, from easiest. */
  function Rank(c: Colour): nat {
    match c
    case Green => 0
    case Yellow => 1
    case Red => 2
  }

  /** The label names the band of the colour. */
  lemma SameBand(difficulty: real)
    ensures DifficultyLabel(difficulty) == ["Kolay", "Orta", "Zor"][Rank(DifficultyColour(difficulty))]
  {
  }

  /** A harder question never gets an easier band. */
  lemma BandMonotone(d1: real, d2: real)
    requires d1 <= d2
    ensures Rank(DifficultyColour(d1)) <= Rank(DifficultyColour(d2))
  {
  }
}
