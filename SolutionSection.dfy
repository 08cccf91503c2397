/**
 * The solution section's computed choices: the icon for a feature type, the
 * bento layout (column span, how many tags, the "+ more" marker) and the
 * image the card grid shows for each card.
 */
module SolutionSection {
  import opened Wrappers
  import opened Strings
  import opened Keywords
  import opened Content

  /** The type rules, in the order `getIconForType` tries them. */
  const TypeRules: seq<Rule> := [
    Rule(["hardware", "sensor"], Cpu),
    Rule(["software", "app"], Layers),
    Rule(["ai", "intelligence"], BrainCircuit),
    Rule(["data"], Database),
    Rule(["research", "bio"], Microscope),
    Rule(["network"], Network)
  ]

  /**
   * `getIconForType`: an if-chain of substring tests on the lower-cased
   * type. It is the ordered first-match rule over `TypeRules`: the earliest
   * rule with a keyword in the lower-cased type decides, Activity when none
   * has.
   */
  function IconForType(kind: string): (icon: Icon)
    ensures icon == FirstMatch(TypeRules, ToLower(kind), Activity)
  {
    var t := ToLower(kind);
    FiresPair(TypeRules[0], t, "hardware", "sensor");
    FiresPair(TypeRules[1], t, "software", "app");
    FiresPair(TypeRules[2], t, "ai", "intelligence");
    FiresSingle(TypeRules[3], t, "data");
    FiresPair(TypeRules[4], t, "research", "bio");
    FiresSingle(TypeRules[5], t, "network");
    assert TypeRules[1..][1..][1..][1..][1..][1..] == [];
    if Contains(t, "hardware") || Contains(t, "sensor") then Cpu
    else if Contains(t, "software") || Contains(t, "app") then Layers
    else if Contains(t, "ai") || Contains(t, "intelligence") then BrainCircuit
    else if Contains(t, "data") then Database
    else if Contains(t, "research") || Contains(t, "bio") then Microscope
    else if Contains(t, "network") then Network
    else Activity
  }

  /** The type is lower-cased first, so its case never matters. */
  lemma IconForTypeIgnoresCase(kind: string)
    ensures IconForType(ToLower(kind)) == IconForType(kind)
  {
    ToLowerIdempotent(kind);
  }

  /**
   * A type lacking the letters h, s and n, and lacking either a or all of
   * p, i and d, and either b or i, contains none of the keywords: each
   * keyword has one of those letters.
   */
  lemma DefaultIconWhenLettersMissing(kind: string)
    requires Lacks(kind, 'h') && Lacks(kind, 's') && Lacks(kind, 'n')
    requires Lacks(kind, 'a') || (Lacks(kind, 'p') && Lacks(kind, 'i') && Lacks(kind, 'd'))
    requires Lacks(kind, 'b') || Lacks(kind, 'i')
    ensures IconForType(kind) == Activity
  {
    KeywordAbsent(kind, "hardware", 0);
    KeywordAbsent(kind, "sensor", 0);
    KeywordAbsent(kind, "software", 0);
    KeywordAbsent(kind, "research", 2);
    KeywordAbsent(kind, "network", 0);
    KeywordAbsent(kind, "intelligence", 1);
    if Lacks(kind, 'a') {
      KeywordAbsent(kind, "app", 0);
      KeywordAbsent(kind, "ai", 0);
      KeywordAbsent(kind, "data", 1);
    } else {
      KeywordAbsent(kind, "app", 1);
      KeywordAbsent(kind, "ai", 1);
      KeywordAbsent(kind, "data", 0);
    }
    if Lacks(kind, 'b') {
      KeywordAbsent(kind, "bio", 0);
    } else {
      KeywordAbsent(kind, "bio", 1);
    }
  }

  lemma WearableIcon()
    ensures IconForType("Wearable ") == Activity
  {
    DefaultIconWhenLettersMissing("Wearable ");
  }

  lemma EdgeDeviceIcon()
    ensures IconForType("Edge Device ") == Activity
  {
    DefaultIconWhenLettersMissing("Edge Device ");
  }

  /** Both shipped feature types fall through to the default icon. */
  lemma ShippedFeatureIcons()
    ensures IconForType(solutionFeatures[0].kind) == Activity
    ensures IconForType(solutionFeatures[1].kind) == Activity
  {
    var wearable := solutionFeatures[0].kind;
    var edgeDevice := solutionFeatures[1].kind;
    assert wearable == "Wearable ";
    assert edgeDevice == "Edge Device ";
    WearableIcon();
    EdgeDeviceIcon();
  }

  // ---------------------------------------------------------------------
  // Bento variant
  // ---------------------------------------------------------------------

  /** The tag pills of a card and whether "+ more" follows them. */
  datatype TagRow = TagRow(shown: seq<string>, more: bool)

  datatype BentoCard = BentoCard(key: string, icon: Icon, columnSpan: nat, tags: Option<TagRow>)

  /** The first two cards get medium emphasis. */
  predicate IsMedium(index: nat) { index < 2 }

  function ColumnSpan(index: nat): nat { if IsMedium(index) then 3 else 2 }

  function TagLimit(index: nat): nat { if IsMedium(index) then 3 else 2 }

  /**
   * `keyFeatures.slice(0, limit)` and the "+ more" test: the pills are the
   * leading key features, as many as the limit allows, and "+ more" shows
   * exactly when some key feature is left out.
   */
  function TagRowFor(keyFeatures: seq<string>, limit: nat): (r: TagRow)
    ensures r.shown <= keyFeatures
    ensures |r.shown| == if |keyFeatures| < limit then |keyFeatures| else limit
    ensures r.more <==> |r.shown| < |keyFeatures|
  {
    var shown := if |keyFeatures| <= limit then keyFeatures else keyFeatures[..limit];
    TagRow(shown, |keyFeatures| > limit)
  }

  function BentoCardFor(index: nat, feature: SolutionFeature): BentoCard {
    BentoCard(
      feature.component,
      IconForType(feature.kind),
      ColumnSpan(index),
      match feature.keyFeatures
      case None => None
      case Some(keyFeatures) => Some(TagRowFor(keyFeatures, TagLimit(index))))
  }

  /** The cards of the bento grid, one per feature, in order. */
  function BentoCards(features: seq<SolutionFeature>): (cards: seq<BentoCard>)
    ensures |cards| == |features|
    ensures forall i :: 0 <= i < |features| ==> cards[i] == BentoCardFor(i, features[i])
  {
    seq(|features|, i requires 0 <= i < |features| => BentoCardFor(i, features[i]))
  }

  /**
   * The layout rule per card: cards 0 and 1 span three columns and show up
   * to three tags, the rest span two and show up to two; no tag row at all
   * without key features; "+ more" exactly when the list exceeds the limit.
   */
  lemma BentoLayout(features: seq<SolutionFeature>, i: nat)
    requires i < |features|
    ensures BentoCards(features)[i].columnSpan == (if i < 2 then 3 else 2)
    ensures BentoCards(features)[i].tags.None? <==> features[i].keyFeatures.None?
    ensures features[i].keyFeatures.Some? ==>
      var kf := features[i].keyFeatures.value;
      var limit := if i < 2 then 3 else 2;
      && BentoCards(features)[i].tags.value.shown == kf[..if |kf| < limit then |kf| else limit]
      && (BentoCards(features)[i].tags.value.more <==> |kf| > limit)
  {
  }

  // ---------------------------------------------------------------------
  // Card-grid variant
  // ---------------------------------------------------------------------

  const CardGridImages: seq<string> := [
    "https://images.unsplash.com/photo-1576091160399-112ba8d25d1d?q=80&w=2670&auto=format&fit=crop",
    "https://images.unsplash.com/photo-1581091226825-a6a2a5aee158?q=80&w=2670&auto=format&fit=crop",
    "https://images.unsplash.com/photo-1551288049-bebda4e38f71?q=80&w=2670&auto=format&fit=crop"
  ]

  /** `cardGridImages[index % cardGridImages.length]`. */
  function CardGridImage(index: nat): (url: string)
    ensures url in CardGridImages
  {
    CardGridImages[index % |CardGridImages|]
  }

  /** The images repeat with period three, starting from the first. */
  lemma CardGridImagesCycle(index: nat)
    ensures CardGridImage(index + 3) == CardGridImage(index)
    ensures index < 3 ==> CardGridImage(index) == CardGridImages[index]
  {
  }
}
