/**
 * Classification of the photoresistor reading into five light levels
 * (the threshold ladder of `medirLuz`) and the status text published
 * for each level.
 */
module Light {

  /** A sample of the 12-bit analog-to-digital converter (`analogRead`). */
  type AdcSample = x: int | 0 <= x <= 4095

  /** A light level: 0 dark, 1 dim, 2 lit, 3 bright, 4 very bright. */
  type LightLevel = l: int | 0 <= l <= 4

  /** The four cut points of the ladder, in increasing order. */
  const CutPoints: seq<int> := [10, 200, 500, 800]

  /**
   * Level `l` covers the half-open band from its lower cut point (none for
   * level 0) up to its upper cut point (none for level 4).
   */
  predicate InBand(v: int, l: LightLevel)
  {
    (l == 0 || CutPoints[l - 1] <= v) && (l == 4 || v < CutPoints[l])
  }

  /** The threshold ladder: total over every integer, out-of-range values fall into the extreme bands. */
  function ClassifyLight(v: int): (l: LightLevel)
    ensures InBand(v, l)
  {
    if v < 10 then 0
    else if v < 200 then 1
    else if v < 500 then 2
    else if v < 800 then 3
    else 4
  }

  /** The bands do not overlap: a reading lies in the band of exactly one level. */
  lemma BandsDisjoint(v: int, l: LightLevel)
    requires InBand(v, l)
    ensures l == ClassifyLight(v)
  {
  }

  /** A larger reading never gives a darker level. */
  lemma ClassifyMonotonic(v1: int, v2: int)
    requires v1 <= v2
    ensures ClassifyLight(v1) <= ClassifyLight(v2)
  {
  }

  /** The text published on the light topic for each level. */
  function LevelText(l: LightLevel): (t: string)
    ensures 5 <= |t| <= 12
  {
    if l == 0 then "Escuro"
    else if l == 1 then "Pouco escuro"
    else if l == 2 then "Iluminado"
    else if l == 3 then "Claro"
    else "Muito claro"
  }

  /** Whether a message is one of the five level texts. */
  predicate IsLevelText(m: string)
  {
    m in {"Escuro", "Pouco escuro", "Iluminado", "Claro", "Muito claro"}
  }

  /** Each level has its own text, and every level text names exactly one level. */
  lemma LevelTextDistinct(l1: LightLevel, l2: LightLevel)
    ensures IsLevelText(LevelText(l1))
    ensures LevelText(l1) == LevelText(l2) <==> l1 == l2
  {
  }
}
