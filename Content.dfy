/**
 * The site's content tables: constant records imported by every page, with
 * the consistency the pages silently rely on (unique React keys, navigation
 * anchors that exist, a bill of materials that adds up).
 */
module Content {
  import opened Wrappers
  import opened Strings

  datatype ItemType = Section | Page

  /** A navigation entry: a section anchor on the home page or a route. */
  datatype NavItem = NavItem(labelText: string, href: string, kind: ItemType)

  datatype HeroStat = HeroStat(labelText: string, value: string, caption: string)

  datatype ProblemCard = ProblemCard(id: string, title: string, description: string)

  datatype SolutionFeature = SolutionFeature(
    component: string,
    kind: string,
    description: string,
    keyFeatures: Option<seq<string>>,
    capabilities: Option<seq<string>>)

  datatype HardwareSpec = HardwareSpec(device: string, microcontroller: string, sensors: seq<string>)

  datatype ProtocolSpec = ProtocolSpec(protocol: string, purpose: string)

  datatype ArchitectureLayer = ArchitectureLayer(
    layerName: string,
    role: string,
    hardwareSpecs: Option<seq<HardwareSpec>>,
    protocols: Option<seq<ProtocolSpec>>,
    techStack: Option<seq<string>>)

  /** `qty: number | string`. */
  datatype Quantity = Units(count: nat) | Described(text: string)

  datatype BomItem = BomItem(part: string, spec: string, qty: Quantity, price: string, totalCost: string)

  datatype BillOfMaterials = BillOfMaterials(
    title: string,
    currency: string,
    items: seq<BomItem>,
    totalEstimatedBudget: string)

  const navigation: seq<NavItem> := [
    NavItem("Overview", "overview", Section),
    NavItem("Problem", "problem", Section),
    NavItem("Solution", "solution", Section),
    NavItem("Architecture", "architecture", Section),
    NavItem("Goals", "goals", Section),
    NavItem("Team", "/team", Page),
    NavItem("BOM", "/bom", Page)
  ]

  /** The section ids the home page hands to the active-section tracker. */
  const homeSectionIds: seq<string> := ["overview", "problem", "solution", "architecture", "goals", "github"]

  const heroStats: seq<HeroStat> := [
    HeroStat("Continuous Monitoring", "24/7", "IoT-based coverage for critical newborn intervention"),
    HeroStat("High-Risk Infants", "10-15%", "Newborns requiring NICU-grade intervention"),
    HeroStat("System Layers", "4", "Perception to application architecture")
  ]

  const problemCards: seq<ProblemCard> := [
    ProblemCard("noise", "NICU Noisy Environment ",
      "High noise levels create a stressful environment for infants and staff."),
    ProblemCard("manual", "Manual Assessments ",
      "Reliance on periodic checks rather than continuous automated monitoring."),
    ProblemCard("tracking", "Only Track Vital Sign ",
      "Current systems often lack contextual data, tracking only basic vitals without environmental or audio context."),
    ProblemCard("interpretation", "Misinterpreted Infant Cry ",
      "Difficulty in accurately understanding the specific needs behind an infant's cry.")
  ]

  /** The heading the problem section prints above the cards. */
  const painPointsHeading: string := "4 Pain Points in Neonatal Care"

  const solutionFeatures: seq<SolutionFeature> := [
    SolutionFeature("Hush Smart Bracelet ", "Wearable ",
      "A medical-grade sensor device worn by the infant.",
      Some(["Next-level caring mascot design ", "Swappable Charm ", "Low Power Consumption ", "All-day battery life "]),
      None),
    SolutionFeature("Hush Baby Box ", "Edge Device ",
      "Responsible for detecting baby box temperature, humidity, and monitoring baby sound and voice.",
      None, None)
  ]

  const architectureLayers: seq<ArchitectureLayer> := [
    ArchitectureLayer("Perception Layer ",
      "Responsible for detecting and collecting physical data from the baby's environment.",
      Some([
        HardwareSpec("Smart Bracelet", "ESP 32 DevKit ", ["MAX30102 (Heart Rate, Blood Oxygen) "]),
        HardwareSpec("Baby Box", "Arduino Nano ", ["Temperature ", "Humidity ", "Audio/Microphone "])
      ]),
      None, None),
    ArchitectureLayer("Network Layer ",
      "Ensures super reliable connection and data transfer.",
      None,
      Some([
        ProtocolSpec("BLE (Bluetooth Low Energy) ", "Transfers data from wearable sensors to the fog node "),
        ProtocolSpec("MQTT ", "Sends processed data from the fog node to the cloud backend ")
      ]),
      None),
    ArchitectureLayer("Middleware Layer (Fog Service) ",
      "Performs Edge AI inference and anomaly detection.",
      None, None,
      Some(["Fog Service Architecture ", "Structured Payload {JSON} ", "Realtime Classifier Model: TFLite "])),
    ArchitectureLayer("Application Layer (Cloud Service) ",
      "Data storage, deployment, and user interface.",
      None, None,
      Some(["NextJS ", "NestJS ", "Redis ", "PostgreSQL ", "InfluxDB ", "Cloud Backend with containerized microservices "]))
  ]

  const billOfMaterials: BillOfMaterials := BillOfMaterials(
    "Bill of Material ",
    "NT$",
    [
      BomItem("Arduino Nano 33 BLE Sense", "BLE + built-in sensors, 3.3V logic", Units(1), "1500", "1500 "),
      BomItem("ESP32 Devkit V1", "ESP32 development board", Units(1), "400", "400 "),
      BomItem("MAX30102 Sensor", "Heart rate + SpO2 sensor", Units(1), "100", "100 "),
      BomItem("Battery 200mAh (Li-po)", "3.7 V 200mAh", Units(1), "100", "100 "),
      BomItem("ESP-01s", "WiFi module (ESP8266), 1 MB flash", Units(1), "80", "80 "),
      BomItem("Current Regulator AMS1117 3.3v", "Linear regulator 5V → 3.3V", Units(1), "50", "50 "),
      BomItem("TP4056 Charging Module", "1 A Li-ion charger module", Units(1), "40", "40 "),
      BomItem("USB Breakout Board / Electrolytic Capacitor", "USB to 4 pins / 100µF 16V", Units(1), "40 / 10", "50 "),
      BomItem("Switch", "", Units(1), "20", "20 "),
      BomItem("Ceramic Capacitor / LED / Resistor", "Misc components", Described("Various"), "Misc", "15 ")
    ],
    "NT$2355 ")

  // ---------------------------------------------------------------------
  // Reading the amounts of the bill of materials
  // ---------------------------------------------------------------------

  const PartSeparator: string := " / "

  /**
   * The amount a price string states, trailing spaces ignored; a price
   * listing several parts ("40 / 10") states the sum of the parts.
   */
  function ParseAmount(s: string): Option<nat>
    decreases |s|
  {
    var t := TrimEnd(s);
    match IndexOf(t, PartSeparator)
    case None => ParseNat(t)
    case Some(i) =>
      match (ParseNat(t[..i]), ParseAmount(t[i + |PartSeparator|..]))
      case (Some(a), Some(b)) => Some(a + b)
      case _ => None
  }

  lemma NoSeparatorInNumeral(n: nat)
    ensures IndexOf(ShowNat(n), PartSeparator) == None
  {
    var s := ShowNat(n);
    ContainsHasChar(s, PartSeparator, 0);
    ContainsIffOccurs(s, PartSeparator);
  }

  lemma TrimNumeral(n: nat, pad: string)
    requires forall i :: 0 <= i < |pad| ==> pad[i] == ' '
    ensures TrimEnd(ShowNat(n) + pad) == ShowNat(n)
  {
    var d := ShowNat(n);
    var s := d + pad;
    var t := TrimEnd(s);
    assert s[|d| - 1] == d[|d| - 1] != ' ';
    assert |t| == |d|;
    assert t == s[..|d|] == d;
  }

  /** A single numeral, trailing spaces trimmed, reads back as its number. */
  lemma {:induction false} AmountOfNumeral(n: nat, pad: string)
    requires forall i :: 0 <= i < |pad| ==> pad[i] == ' '
    ensures ParseAmount(ShowNat(n) + pad) == Some(n)
  {
    TrimNumeral(n, pad);
    NoSeparatorInNumeral(n);
    ParseShowNat(n);
  }

  /** A price written as two parts reads as their sum. */
  lemma {:induction false} AmountOfParts(a: nat, b: nat)
    ensures ParseAmount(ShowNat(a) + PartSeparator + ShowNat(b)) == Some(a + b)
  {
    var s := ShowNat(a) + PartSeparator + ShowNat(b);
    var da := ShowNat(a);
    assert s[|s| - 1] == ShowNat(b)[|ShowNat(b)| - 1] != ' ';
    assert TrimEnd(s) == s;
    assert OccursAt(s, PartSeparator, |da|) by {
      assert s[|da|..|da| + 3] == PartSeparator;
    }
    forall j | 0 <= j < |da|
      ensures !OccursAt(s, PartSeparator, j)
    {
      assert s[j] == da[j] != ' ';
    }
    assert IndexOf(s, PartSeparator) == Some(|da|);
    assert s[..|da|] == da;
    assert s[|da| + 3..] == ShowNat(b) + [];
    ParseShowNat(a);
    AmountOfNumeral(b, []);
  }

  /** The sum of the first `n` line totals, if every one of them reads as a number. */
  function TotalOfFirst(items: seq<BomItem>, n: nat): Option<nat>
    requires n <= |items|
  {
    if n == 0 then Some(0)
    else match (TotalOfFirst(items, n - 1), ParseAmount(items[n - 1].totalCost))
      case (Some(a), Some(b)) => Some(a + b)
      case _ => None
  }

  function SumOfTotals(items: seq<BomItem>): Option<nat> {
    TotalOfFirst(items, |items|)
  }

  /** The stated budget: the currency symbol followed by an amount. */
  function StatedBudget(bom: BillOfMaterials): Option<nat> {
    if IsPrefix(bom.currency, bom.totalEstimatedBudget)
    then ParseAmount(bom.totalEstimatedBudget[|bom.currency|..])
    else None
  }

  /** How the table spells a plain amount: a numeral, optionally followed by one space. */
  lemma ReadsAs(s: string, n: nat)
    requires s == ShowNat(n) || s == ShowNat(n) + " "
    ensures ParseAmount(s) == Some(n)
  {
    if s == ShowNat(n) {
      assert s == ShowNat(n) + [];
      AmountOfNumeral(n, []);
    } else {
      AmountOfNumeral(n, " ");
    }
  }

  /** The line totals, row by row, as the table's strings state them. */
  const lineTotals: seq<nat> := [1500, 400, 100, 100, 80, 50, 40, 50, 20, 15]

  lemma LineTotalReads(k: nat)
    requires k < |billOfMaterials.items|
    ensures ParseAmount(billOfMaterials.items[k].totalCost) == Some(lineTotals[k])
  {
    var s := billOfMaterials.items[k].totalCost;
    match k
    case 0 => assert s == "1500 "; ReadsAs(s, 1500);
    case 1 => assert s == "400 "; ReadsAs(s, 400);
    case 2 => assert s == "100 "; ReadsAs(s, 100);
    case 3 => assert s == "100 "; ReadsAs(s, 100);
    case 4 => assert s == "80 "; ReadsAs(s, 80);
    case 5 => assert s == "50 "; ReadsAs(s, 50);
    case 6 => assert s == "40 "; ReadsAs(s, 40);
    case 7 => assert s == "50 "; ReadsAs(s, 50);
    case 8 => assert s == "20 "; ReadsAs(s, 20);
    case 9 => assert s == "15 "; ReadsAs(s, 15);
  }

  /** The price of each single-unit row reads as that row's line total. */
  lemma SingleUnitPriceReads(k: nat)
    requires k < |billOfMaterials.items| && billOfMaterials.items[k].qty == Units(1)
    ensures ParseAmount(billOfMaterials.items[k].price) == Some(lineTotals[k])
  {
    var s := billOfMaterials.items[k].price;
    match k
    case 0 => assert s == "1500"; ReadsAs(s, 1500);
    case 1 => assert s == "400"; ReadsAs(s, 400);
    case 2 => assert s == "100"; ReadsAs(s, 100);
    case 3 => assert s == "100"; ReadsAs(s, 100);
    case 4 => assert s == "80"; ReadsAs(s, 80);
    case 5 => assert s == "50"; ReadsAs(s, 50);
    case 6 => assert s == "40"; ReadsAs(s, 40);
    case 7 => assert s == ShowNat(40) + PartSeparator + ShowNat(10); AmountOfParts(40, 10);
    case 8 => assert s == "20"; ReadsAs(s, 20);
  }

  function SumOfFirst(xs: seq<nat>, n: nat): nat
    requires n <= |xs|
  {
    if n == 0 then 0 else SumOfFirst(xs, n - 1) + xs[n - 1]
  }

  /** When every line total reads as a number, the total is their sum. */
  lemma {:induction false} TotalIsSumOfAmounts(items: seq<BomItem>, amounts: seq<nat>, n: nat)
    requires n <= |items| == |amounts|
    requires forall k :: 0 <= k < n ==> ParseAmount(items[k].totalCost) == Some(amounts[k])
    ensures TotalOfFirst(items, n) == Some(SumOfFirst(amounts, n))
  {
    if n > 0 {
      TotalIsSumOfAmounts(items, amounts, n - 1);
    }
  }

  /** The stated budget reads as NT$2355. */
  lemma BudgetIsStated()
    ensures StatedBudget(billOfMaterials) == Some(2355)
  {
    var budget := billOfMaterials.totalEstimatedBudget;
    assert IsPrefix(billOfMaterials.currency, budget);
    assert budget[3..] == "2355 ";
    ReadsAs("2355 ", 2355);
  }

  /** The line totals add up to the stated budget. */
  lemma BomTotalsMatchBudget()
    ensures SumOfTotals(billOfMaterials.items) == Some(2355)
    ensures SumOfTotals(billOfMaterials.items) == StatedBudget(billOfMaterials)
  {
    var items := billOfMaterials.items;
    forall k | 0 <= k < |items|
      ensures ParseAmount(items[k].totalCost) == Some(lineTotals[k])
    {
      LineTotalReads(k);
    }
    TotalIsSumOfAmounts(items, lineTotals, |items|);
    assert SumOfFirst(lineTotals, 10) == 2355;
    BudgetIsStated();
  }

  /**
   * Every single-unit line costs what its price says, the two-part price
   * "40 / 10" read as the sum of its parts.
   */
  lemma SingleUnitTotalsMatchPrice()
    ensures forall k :: 0 <= k < |billOfMaterials.items| && billOfMaterials.items[k].qty == Units(1) ==>
      ParseAmount(billOfMaterials.items[k].price).Some? &&
      ParseAmount(billOfMaterials.items[k].totalCost) == ParseAmount(billOfMaterials.items[k].price)
  {
    forall k | 0 <= k < |billOfMaterials.items| && billOfMaterials.items[k].qty == Units(1)
      ensures ParseAmount(billOfMaterials.items[k].price).Some?
      ensures ParseAmount(billOfMaterials.items[k].totalCost) == ParseAmount(billOfMaterials.items[k].price)
    {
      LineTotalReads(k);
      SingleUnitPriceReads(k);
    }
  }

  /** Part names are the rows' React keys, so they must differ. */
  lemma BomPartsDistinct()
    ensures forall i, j :: 0 <= i < j < |billOfMaterials.items| ==>
      billOfMaterials.items[i].part != billOfMaterials.items[j].part
  {
  }

  /** Labels are the list items' React keys; hrefs are the link targets. */
  lemma NavigationKeysDistinct()
    ensures forall i, j :: 0 <= i < j < |navigation| ==> navigation[i].labelText != navigation[j].labelText
    ensures forall i, j :: 0 <= i < j < |navigation| ==> navigation[i].href != navigation[j].href
  {
  }

  /** Every section link names a section the home page renders and tracks. */
  lemma SectionLinksTargetHomeSections()
    ensures forall i :: 0 <= i < |navigation| && navigation[i].kind == Section ==> navigation[i].href in homeSectionIds
  {
  }

  /** The "System Layers" statistic agrees with the architecture table. */
  lemma LayerStatMatchesArchitecture()
    ensures heroStats[2].labelText == "System Layers"
    ensures ParseAmount(heroStats[2].value) == Some(|architectureLayers|)
  {
    ReadsAs(heroStats[2].value, 4);
  }

  /** The heading's count agrees with the cards, and card ids are distinct keys. */
  lemma PainPointsMatchCards()
    ensures ParseAmount(painPointsHeading[..1]) == Some(|problemCards|)
    ensures painPointsHeading[1] == ' '
    ensures forall i, j :: 0 <= i < j < |problemCards| ==> problemCards[i].id != problemCards[j].id
  {
    ReadsAs(painPointsHeading[..1], 4);
  }

}
