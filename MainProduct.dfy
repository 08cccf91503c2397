/** The hero section's statistic cards and the icon chosen for each label. */
module MainProduct {
  import opened Strings
  import opened Keywords
  import opened Content

  /** The label rules, in the order `statIcon` tries them. */
  const StatRules: seq<Rule> := [
    Rule(["continuous"], Activity),
    Rule(["high-risk"], ShieldCheck),
    Rule(["layer"], Layers)
  ]

  /**
   * `statIcon`: an if-chain of substring tests on the lower-cased label.
   * It is the ordered first-match rule over `StatRules`: "continuous"
   * before "high-risk" before "layer", Zap when none occurs.
   */
  function StatIcon(statLabel: string): (icon: Icon)
    ensures icon == FirstMatch(StatRules, ToLower(statLabel), Zap)
  {
    var t := ToLower(statLabel);
    FiresSingle(StatRules[0], t, "continuous");
    FiresSingle(StatRules[1], t, "high-risk");
    FiresSingle(StatRules[2], t, "layer");
    assert StatRules[1..][1..][1..] == [];
    if Contains(t, "continuous") then Activity
    else if Contains(t, "high-risk") then ShieldCheck
    else if Contains(t, "layer") then Layers
    else Zap
  }

  /** Matching ignores case. */
  lemma StatIconIgnoresCase(statLabel: string)
    ensures StatIcon(ToLower(statLabel)) == StatIcon(statLabel)
  {
    ToLowerIdempotent(statLabel);
  }

  /** One rendered statistic card; `key` is its React key. */
  datatype StatCard = StatCard(key: string, icon: Icon, value: string, caption: string)

  function StatCardFor(stat: HeroStat): StatCard {
    StatCard(stat.labelText, StatIcon(stat.labelText), stat.value, stat.caption)
  }

  /** `stats.map(...)`: one card per statistic, in input order, keyed by its statLabel. */
  function StatCards(stats: seq<HeroStat>): (cards: seq<StatCard>)
    ensures |cards| == |stats|
    ensures forall i :: 0 <= i < |stats| ==>
      cards[i].key == stats[i].labelText && cards[i].icon == StatIcon(stats[i].labelText) &&
      cards[i].value == stats[i].value && cards[i].caption == stats[i].caption
  {
    if stats == [] then [] else [StatCardFor(stats[0])] + StatCards(stats[1..])
  }

  /** A label opening with "continuous", in any case, gets Activity. */
  lemma ContinuousLabelIcon(statLabel: string)
    requires |statLabel| >= 10 && ToLower(statLabel[..10]) == "continuous"
    ensures StatIcon(statLabel) == Activity
  {
    KeywordPresent(statLabel, "continuous", 0);
  }

  /** A label opening with "high-risk" and lacking the letter c gets ShieldCheck. */
  lemma HighRiskLabelIcon(statLabel: string)
    requires Lacks(statLabel, 'c')
    requires |statLabel| >= 9 && ToLower(statLabel[..9]) == "high-risk"
    ensures StatIcon(statLabel) == ShieldCheck
  {
    KeywordAbsent(statLabel, "continuous", 0);
    KeywordPresent(statLabel, "high-risk", 0);
  }

  /** A label holding "layer" and lacking the letters c and h gets Layers. */
  lemma LayerLabelIcon(statLabel: string, i: nat)
    requires Lacks(statLabel, 'c') && Lacks(statLabel, 'h')
    requires i + 5 <= |statLabel| && ToLower(statLabel[i..i + 5]) == "layer"
    ensures StatIcon(statLabel) == Layers
  {
    KeywordAbsent(statLabel, "continuous", 0);
    KeywordAbsent(statLabel, "high-risk", 0);
    KeywordPresent(statLabel, "layer", i);
  }

  lemma ContinuousMonitoringIcon()
    ensures StatIcon("Continuous Monitoring") == Activity
  {
    var continuous := "Continuous Monitoring";
    assert continuous[..10] == "Continuous";
    ContinuousLabelIcon(continuous);
  }

  lemma HighRiskInfantsIcon()
    ensures StatIcon("High-Risk Infants") == ShieldCheck
  {
    HighRiskLabelIcon("High-Risk Infants");
  }

  lemma SystemLayersIcon()
    ensures StatIcon("System Layers") == Layers
  {
    var layers := "System Layers";
    var word := layers[7..12];
    assert word == "Layer";
    assert ToLower(word) == "layer" by {
      assert forall i :: 0 <= i < 5 ==> ToLower(word)[i] == LowerChar(word[i]);
    }
    LayerLabelIcon(layers, 7);
  }

  /** The shipped statistics show Activity, ShieldCheck and Layers, in that order. */
  lemma ShippedStatIcons()
    ensures |StatCards(heroStats)| == 3
    ensures StatCards(heroStats)[0].icon == Activity
    ensures StatCards(heroStats)[1].icon == ShieldCheck
    ensures StatCards(heroStats)[2].icon == Layers
  {
    var continuous := heroStats[0].labelText;
    var highRisk := heroStats[1].labelText;
    var layers := heroStats[2].labelText;
    assert continuous == "Continuous Monitoring";
    assert highRisk == "High-Risk Infants";
    assert layers == "System Layers";
    ContinuousMonitoringIcon();
    HighRiskInfantsIcon();
    SystemLayersIcon();
  }
}
