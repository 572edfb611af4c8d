/** The three-tier contamination advisory at the end of each prediction in executar_modelo:
    the class-1 probability is scaled to a percentage and compared against 33 and 50. */
module RiskPolicy {

  datatype Tier = Low | Moderate | High

  /** Position of a tier in increasing order of severity. */
  function Severity(t: Tier): nat
  {
    match t
    case Low => 0
    case Moderate => 1
    case High => 2
  }

  /** `nivel_probabilidade = probabilidade[0][1] * 100`, with exact reals. */
  function ContaminationPercentage(probability: real): real
  {
    probability * 100.0
  }

  /** The if/elif/else chain: `<= 33`, then `<= 50`, else. The three bands are each
      closed on their upper end, and every percentage falls in exactly one. */
  function TierOf(percentage: real): (t: Tier)
    ensures t == Low <==> percentage <= 33.0
    ensures t == Moderate <==> 33.0 < percentage <= 50.0
    ensures t == High <==> percentage > 50.0
  {
    if percentage <= 33.0 then Low
    else if percentage <= 50.0 then Moderate
    else High
  }

  /** The lines printed for LOW. */
  const LowAdvisory: seq<string> := [
    "\nA água apresenta leve ou nenhuma contaminação por óleo.",
    "Evite contato direto com a água se possível.",
    "Observe se há manchas pequenas ou odor leve.",
    "Em caso de dúvidas, entre em contato com a defesa civil\n"
  ]

  /** The lines printed for MODERATE; the heading is in bold yellow. */
  const ModerateAdvisory: seq<string> := [
    "\U{1B}[1;33m\nCONTAMINAÇÃO MODERADA DETECTADA!\U{1B}[m",
    "Não entre em contato com a água.",
    "Notifique imediatamente as autoridades locais",
    "Evite o uso de sabão ou tentativas de limpeza caseira.",
    "Observe se animais estão sendo afetados"
  ]

  /** The lines printed for HIGH; the heading is in bold red. */
  const HighAdvisory: seq<string> := [
    "\U{1B}[1;31mALTA CONTAMINAÇÃO DETECTADA\U{1B}[m",
    "Risco grave à saúde e ao meio ambiente",
    "Afaste-se da área contaminada",
    "Evacue se necessário e chame o órgão ambiental competente",
    "Registre o local para ajudar nas investigações"
  ]

  /** The lines printed for each tier, character for character, colour escapes included. */
  function Advisory(t: Tier): (lines: seq<string>)
    ensures |lines| == if t == Low then 4 else 5
  {
    match t
    case Low => LowAdvisory
    case Moderate => ModerateAdvisory
    case High => HighAdvisory
  }

  /** What the prediction step reports: the percentage and its tier. */
  datatype Assessment = Assessment(percentage: real, tier: Tier)

  /** The risk assessment printed for one predicted class-1 probability: the thresholds
      33 and 50 on the percentage are 0.33 and 0.50 on the probability, and a probability
      in [0, 1] is reported as a percentage in [0, 100]. */
  function Assess(probability: real): (a: Assessment)
    ensures a.tier == Low <==> probability <= 0.33
    ensures a.tier == Moderate <==> 0.33 < probability <= 0.5
    ensures a.tier == High <==> probability > 0.5
    ensures 0.0 <= probability <= 1.0 ==> 0.0 <= a.percentage <= 100.0
  {
    var percentage := ContaminationPercentage(probability);
    Assessment(percentage, TierOf(percentage))
  }

  /** A larger percentage never gives a less severe tier. */
  lemma TierMonotone(p: real, q: real)
    requires p <= q
    ensures Severity(TierOf(p)) <= Severity(TierOf(q))
  {
  }

  /** Distinct tiers print distinct advisories, so the advisory identifies the tier. */
  lemma AdvisoryDeterminesTier(t1: Tier, t2: Tier)
    requires Advisory(t1) == Advisory(t2)
    ensures t1 == t2
  {
  }

  /** The boundary probabilities: 0.33 is LOW, 0.3301 MODERATE, 0.50 still MODERATE,
      0.5001 HIGH. */
  lemma AssessBoundaries()
    ensures Assess(0.33).tier == Low
    ensures Assess(0.3301).tier == Moderate
    ensures Assess(0.50).tier == Moderate
    ensures Assess(0.5001).tier == High
  {
  }

  /** Over the probabilities a classifier can return, every tier is reached. */
  lemma EveryTierReachable()
    ensures exists p :: 0.0 <= p <= 1.0 && Assess(p).tier == Low
    ensures exists p :: 0.0 <= p <= 1.0 && Assess(p).tier == Moderate
    ensures exists p :: 0.0 <= p <= 1.0 && Assess(p).tier == High
  {
    assert Assess(0.0).tier == Low;
    assert Assess(0.4).tier == Moderate;
    assert Assess(1.0).tier == High;
  }
}
