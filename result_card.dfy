/**
 * The result card (components/result-card.tsx) as a function from its props to
 * the lines it shows, in order, and the props the page passes to it for each
 * kind of record (app/page.tsx).
 */
module ResultCard {
  import opened Wrappers
  import opened IncomeData
  import opened DetailModal

  /** `ResultCardProps`; `onClick` is left out, every optional prop may be absent. */
  datatype CardProps = CardProps(
    code: string,
    name: string,
    taxRate: TaxRate,
    description: Option<string>,
    healthInsuranceCode: Option<string>,
    healthInsuranceName: Option<string>,
    cardType: CategoryType,
    exemptionLimit: Option<string>,
    withholdingThreshold: Option<string>,
    category: Option<string>)

  /** The props of an income card: everything but the category. */
  function IncomeCardProps(item: IncomeCategory): (p: CardProps)
    ensures p.cardType == IncomeType && p.category.None?
    ensures p.code == item.code && p.name == item.name && p.taxRate == item.taxRate
    ensures p.description == item.description && p.exemptionLimit == item.exemptionLimit
    ensures p.withholdingThreshold == item.withholdingThreshold
    ensures p.healthInsuranceCode == item.healthInsuranceCode && p.healthInsuranceName == item.healthInsuranceName
  {
    CardProps(item.code, item.name, item.taxRate, item.description, item.healthInsuranceCode,
      item.healthInsuranceName, IncomeType, item.exemptionLimit, item.withholdingThreshold, None)
  }

  /** The props of an occupation card: code, name, rates and category; never the description. */
  function OccupationCardProps(item: OccupationCategory): (p: CardProps)
    ensures p.cardType == OccupationType && p.category == item.category
    ensures p.code == item.code && p.name == item.name && p.taxRate == item.taxRate
    ensures p.description.None? && p.exemptionLimit.None? && p.withholdingThreshold.None?
    ensures p.healthInsuranceCode.None? && p.healthInsuranceName.None?
  {
    CardProps(item.code, item.name, item.taxRate, None, None, None, OccupationType, None, None, item.category)
  }

  /** One visible line of a card. */
  datatype CardLine =
    | NameLine(name: string)
    | CodeText(code: string)
    | CategoryText(category: string)
    | DescriptionText(description: string)
    | ResidentBadge(resident: string)
    | NonResidentBadge(nonResident: string)
    | ExemptionText(exemptionLimit: string)
    | ThresholdText(withholdingThreshold: string)
    | InsuranceText(insuranceCode: string, insuranceName: string)

  /** The places of a card, top to bottom. */
  datatype Slot =
    | NameSlot | CodeSlot | CategorySlot | DescriptionSlot | ResidentSlot
    | NonResidentSlot | ExemptionSlot | ThresholdSlot | InsuranceSlot

  function SlotOf(l: CardLine): Slot
  {
    match l
    case NameLine(_) => NameSlot
    case CodeText(_) => CodeSlot
    case CategoryText(_) => CategorySlot
    case DescriptionText(_) => DescriptionSlot
    case ResidentBadge(_) => ResidentSlot
    case NonResidentBadge(_) => NonResidentSlot
    case ExemptionText(_) => ExemptionSlot
    case ThresholdText(_) => ThresholdSlot
    case InsuranceText(_, _) => InsuranceSlot
  }

  const CardLayout: seq<Slot> := [
    NameSlot, CodeSlot, CategorySlot, DescriptionSlot, ResidentSlot,
    NonResidentSlot, ExemptionSlot, ThresholdSlot, InsuranceSlot]

  /** What one place of the card shows: its line when its gate is open, otherwise nothing. */
  function Line(k: Slot, p: CardProps): (r: seq<CardLine>)
    ensures |r| <= 1
    ensures forall l :: l in r ==> SlotOf(l) == k
  {
    match k
    case NameSlot => [NameLine(p.name)]
    case CodeSlot => [CodeText(p.code)]
    case CategorySlot => if Truthy(p.category) then [CategoryText(p.category.value)] else []
    case DescriptionSlot => if Truthy(p.description) then [DescriptionText(p.description.value)] else []
    case ResidentSlot => [ResidentBadge(p.taxRate.resident)]
    case NonResidentSlot => [NonResidentBadge(p.taxRate.nonResident)]
    case ExemptionSlot => if Truthy(p.exemptionLimit) then [ExemptionText(p.exemptionLimit.value)] else []
    case ThresholdSlot =>
      if Truthy(p.withholdingThreshold) then [ThresholdText(p.withholdingThreshold.value)] else []
    case InsuranceSlot =>
      if Truthy(p.healthInsuranceCode) && Truthy(p.healthInsuranceName)
      then [InsuranceText(p.healthInsuranceCode.value, p.healthInsuranceName.value)]
      else []
  }

  function Lines(ks: seq<Slot>, p: CardProps): seq<CardLine>
  {
    if ks == [] then [] else Line(ks[0], p) + Lines(ks[1..], p)
  }

  lemma {:induction false} LinesMember(ks: seq<Slot>, p: CardProps, l: CardLine)
    ensures l in Lines(ks, p) <==> SlotOf(l) in ks && l in Line(SlotOf(l), p)
  {
    if ks != [] {
      LinesMember(ks[1..], p, l);
      assert ks == [ks[0]] + ks[1..];
    }
  }

  /** A rendered card: its icon follows the card type. */
  datatype Card = Card(icon: CategoryType, lines: seq<CardLine>)

  /** `ResultCard`: the card's layout filled from its props. */
  function Render(p: CardProps): (r: Card)
    ensures r.icon == p.cardType
    ensures |r.lines| <= |CardLayout|
  {
    LinesLength(CardLayout, p);
    Card(p.cardType, Lines(CardLayout, p))
  }

  lemma {:induction false} LinesLength(ks: seq<Slot>, p: CardProps)
    ensures |Lines(ks, p)| <= |ks|
  {
    if ks != [] {
      LinesLength(ks[1..], p);
    }
  }

  /** A line of the card is exactly a line its own place shows. */
  lemma OnCard(p: CardProps, l: CardLine)
    ensures l in Render(p).lines <==> l in Line(SlotOf(l), p)
  {
    LinesMember(CardLayout, p, l);
  }

  /** Name, code and both tax-rate badges are on every card. */
  lemma CardAlwaysShows(p: CardProps)
    ensures NameLine(p.name) in Render(p).lines && CodeText(p.code) in Render(p).lines
    ensures ResidentBadge(p.taxRate.resident) in Render(p).lines
    ensures NonResidentBadge(p.taxRate.nonResident) in Render(p).lines
  {
    OnCard(p, NameLine(p.name));
    OnCard(p, CodeText(p.code));
    OnCard(p, ResidentBadge(p.taxRate.resident));
    OnCard(p, NonResidentBadge(p.taxRate.nonResident));
  }

  /** The category line is on the card exactly when the category prop is truthy. */
  lemma CardCategoryGate(p: CardProps)
    ensures (exists l :: l in Render(p).lines && l.CategoryText?) <==> Truthy(p.category)
    ensures forall l :: l in Render(p).lines && l.CategoryText? ==> l.category == p.category.value
  {
    forall l | l in Render(p).lines && l.CategoryText?
      ensures l in Line(SlotOf(l), p)
    {
      OnCard(p, l);
    }
    if Truthy(p.category) {
      OnCard(p, CategoryText(p.category.value));
    }
  }

  /** The description line is on the card exactly when the description prop is truthy. */
  lemma CardDescriptionGate(p: CardProps)
    ensures (exists l :: l in Render(p).lines && l.DescriptionText?) <==> Truthy(p.description)
    ensures forall l :: l in Render(p).lines && l.DescriptionText? ==> l.description == p.description.value
  {
    forall l | l in Render(p).lines && l.DescriptionText?
      ensures l in Line(SlotOf(l), p)
    {
      OnCard(p, l);
    }
    if Truthy(p.description) {
      OnCard(p, DescriptionText(p.description.value));
    }
  }

  /** The exemption line is on the card exactly when the exemption-limit prop is truthy. */
  lemma CardExemptionGate(p: CardProps)
    ensures (exists l :: l in Render(p).lines && l.ExemptionText?) <==> Truthy(p.exemptionLimit)
    ensures forall l :: l in Render(p).lines && l.ExemptionText? ==> l.exemptionLimit == p.exemptionLimit.value
  {
    forall l | l in Render(p).lines && l.ExemptionText?
      ensures l in Line(SlotOf(l), p)
    {
      OnCard(p, l);
    }
    if Truthy(p.exemptionLimit) {
      OnCard(p, ExemptionText(p.exemptionLimit.value));
    }
  }

  /** The threshold line is on the card exactly when the withholding-threshold prop is truthy. */
  lemma CardThresholdGate(p: CardProps)
    ensures (exists l :: l in Render(p).lines && l.ThresholdText?) <==> Truthy(p.withholdingThreshold)
    ensures forall l :: l in Render(p).lines && l.ThresholdText? ==> l.withholdingThreshold == p.withholdingThreshold.value
  {
    forall l | l in Render(p).lines && l.ThresholdText?
      ensures l in Line(SlotOf(l), p)
    {
      OnCard(p, l);
    }
    if Truthy(p.withholdingThreshold) {
      OnCard(p, ThresholdText(p.withholdingThreshold.value));
    }
  }

  /** The health-insurance line needs both a truthy code and a truthy name. */
  lemma CardInsuranceGate(p: CardProps)
    ensures (exists l :: l in Render(p).lines && l.InsuranceText?)
      <==> Truthy(p.healthInsuranceCode) && Truthy(p.healthInsuranceName)
    ensures forall l :: l in Render(p).lines && l.InsuranceText? ==>
      l.insuranceCode == p.healthInsuranceCode.value && l.insuranceName == p.healthInsuranceName.value
  {
    forall l | l in Render(p).lines && l.InsuranceText?
      ensures l in Line(SlotOf(l), p)
    {
      OnCard(p, l);
    }
    if Truthy(p.healthInsuranceCode) && Truthy(p.healthInsuranceName) {
      OnCard(p, InsuranceText(p.healthInsuranceCode.value, p.healthInsuranceName.value));
    }
  }

  /**
   * An occupation card shows name, code, category and rates only: never a
   * description, although the 24 and 25 records have one, and never an income line.
   */
  lemma OccupationCardLines(item: OccupationCategory)
    ensures forall l :: l in Render(OccupationCardProps(item)).lines ==>
      l.NameLine? || l.CodeText? || l.CategoryText? || l.ResidentBadge? || l.NonResidentBadge?
  {
    var p := OccupationCardProps(item);
    forall l | l in Render(p).lines
      ensures l.NameLine? || l.CodeText? || l.CategoryText? || l.ResidentBadge? || l.NonResidentBadge?
    {
      OnCard(p, l);
    }
  }

  /** An income card never shows a category line. */
  lemma IncomeCardHasNoCategory(item: IncomeCategory)
    ensures forall l :: l in Render(IncomeCardProps(item)).lines ==> !l.CategoryText?
  {
    var p := IncomeCardProps(item);
    forall l | l in Render(p).lines
      ensures !l.CategoryText?
    {
      OnCard(p, l);
    }
  }
}
