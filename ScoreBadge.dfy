/** The severity badge shown next to a total: a label and the colour paired with it. */
module ScoreBadge {

  datatype Tier = Mild | Moderate | Severe {

    function Label(): string {
      match this
      case Mild => "Mild"
      case Moderate => "Moderate"
      case Severe => "Severe"
    }

    /** The badge's background class. */
    function Color(): string {
      match this
      case Mild => "bg-emerald-500"
      case Moderate => "bg-amber-500"
      case Severe => "bg-rose-500"
    }

    /** Position in the severity order. */
    function Rank(): nat {
      match this
      case Mild => 0
      case Moderate => 1
      case Severe => 2
    }
  }

  /** The tier of a total: Mild unless one of the two thresholds applies. Any integer is
      accepted; nothing caps it. */
  function TierOf(total: int): (t: Tier)
    ensures t == Mild <==> total < 8
    ensures t == Moderate <==> 8 <= total <= 19
    ensures t == Severe <==> 20 <= total
  {
    if total >= 8 && total <= 19 then Moderate
    else if total >= 20 then Severe
    else Mild
  }

  /** The `(label, color)` pair `ScoreBadge` renders for a total. */
  function Badge(total: int): (string, string) {
    (TierOf(total).Label(), TierOf(total).Color())
  }

  lemma TierBoundaries()
    ensures TierOf(7) == Mild && TierOf(8) == Moderate
    ensures TierOf(19) == Moderate && TierOf(20) == Severe
  {
  }

  /** A larger total never has a milder tier. */
  lemma TierMonotone(a: int, b: int)
    requires a <= b
    ensures TierOf(a).Rank() <= TierOf(b).Rank()
  {
  }

  /** On the questionnaire's range 0..35 the tier is the one the score legend gives. */
  lemma TierMatchesLegend(total: int)
    requires 0 <= total <= 35
    ensures TierOf(total).Label() == (if total <= 7 then "Mild" else if total <= 19 then "Moderate" else "Severe")
  {
  }

  /** The colour always goes with its label: emerald with Mild, amber with Moderate, rose
      with Severe, and a label is never shown in another tier's colour. */
  lemma BadgeColourPairs(total: int)
    ensures var (caption, color) := Badge(total);
      && (caption == "Mild" <==> color == "bg-emerald-500")
      && (caption == "Moderate" <==> color == "bg-amber-500")
      && (caption == "Severe" <==> color == "bg-rose-500")
      && (caption == "Mild" || caption == "Moderate" || caption == "Severe")
  {
  }
}
