/**
 * Reference classifications behind the colour and emoji helpers of the three
 * option-trading pages: a four-level risk tier over the integer risk score and
 * a three-level marker over the percentage distance from the strike, each
 * defined by its closed/half-open intervals, with the lookup tables that turn
 * a tier or marker into what the pages display.
 */
module Thresholds {

  /** Risk tiers, from the lowest to the highest score. */
  datatype RiskTier = Basso | Medio | Alto | MoltoAlto

  /** Position of a tier in the order Basso < Medio < Alto < MoltoAlto. */
  function Rank(t: RiskTier): nat {
    match t
    case Basso => 0
    case Medio => 1
    case Alto => 2
    case MoltoAlto => 3
  }

  /** Tier of a risk score, stated interval by interval from the bottom up. */
  function RiskTierOf(riskPoint: int): RiskTier {
    if riskPoint < 70 then Basso
    else if riskPoint < 170 then Medio
    else if riskPoint <= 270 then Alto
    else MoltoAlto
  }

  /** Background colour of the risk badge for each tier. */
  function RiskColour(t: RiskTier): string {
    match t
    case MoltoAlto => "#F90000"
    case Alto => "#F99300"
    case Medio => "#00f900"
    case Basso => "#008000"
  }

  /** Text of the risk badge for each tier. */
  function RiskLabel(t: RiskTier): string {
    match t
    case MoltoAlto => "Molto Alto"
    case Alto => "Alto"
    case Medio => "Medio"
    case Basso => "Basso"
  }

  /** The (colour, label) pair shown for a tier. */
  function RiskIndicator(t: RiskTier): (string, string) {
    (RiskColour(t), RiskLabel(t))
  }

  /** A higher score never lands in a lower tier. */
  lemma RiskTierMonotone(a: int, b: int)
    requires a <= b
    ensures Rank(RiskTierOf(a)) <= Rank(RiskTierOf(b))
  {
  }

  /** Distinct tiers have distinct badge colours, so the colour alone identifies the tier. */
  lemma RiskColourInjective(t: RiskTier, u: RiskTier)
    ensures RiskColour(t) == RiskColour(u) <==> t == u
  {
  }

  /** Distance markers: below, inside and above the 4.50 % .. 10.0 % band. */
  datatype Marker = Rosso | Verde | Oro

  /** Position of a marker in the order Rosso < Verde < Oro. */
  function MarkerRank(m: Marker): nat {
    match m
    case Rosso => 0
    case Verde => 1
    case Oro => 2
  }

  /** Marker of a percentage distance; the band 4.50 .. 10.0 is closed on both sides. */
  function MarkerOf(diffPercent: real): Marker {
    if 4.50 <= diffPercent <= 10.0 then Verde
    else if diffPercent > 10.0 then Oro
    else Rosso
  }

  /** Emoji shown next to the percentage in the second and third page. */
  function MarkerEmoji(m: Marker): string {
    match m
    case Rosso => "\U{1F534}"
    case Verde => "\U{1F7E2}"
    case Oro => "\U{1F31F}"
  }

  /** Text colour of the percentage in the first page. */
  function MarkerHex(m: Marker): string {
    match m
    case Rosso => "#FF0000"
    case Verde => "#008000"
    case Oro => "#FFD700"
  }

  /** A larger distance never gets a lower marker. */
  lemma MarkerMonotone(a: real, b: real)
    requires a <= b
    ensures MarkerRank(MarkerOf(a)) <= MarkerRank(MarkerOf(b))
  {
  }
}
