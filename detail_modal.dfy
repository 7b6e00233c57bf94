/**
 * The detail dialog (components/detail-modal.tsx) as a function from its props to
 * the sections it shows, in the order it shows them. The null guard, the
 * `isIncomeData` gate and the truthiness tests of each optional field decide
 * which sections appear.
 */
module DetailModal {
  import opened Wrappers
  import opened IncomeData

  /** The `type` prop: which tab the record was opened from. */
  datatype CategoryType = IncomeType | OccupationType

  /** A record of either collection: the union `IncomeCategory | OccupationCategory`. */
  datatype Item = IncomeItem(income: IncomeCategory) | OccupationItem(occupation: OccupationCategory)

  /** The field when it is truthy, otherwise nothing. */
  function IfTruthy(field: Option<string>): (r: Option<string>)
    ensures r.Some? <==> Truthy(field)
    ensures r.Some? ==> r == field
  {
    if Truthy(field) then field else None
  }

  // Property reads on the union. A field the record's shape does not declare reads
  // as undefined, which is how the component's casts behave on the other shape.

  function Name(item: Item): string
  {
    match item
    case IncomeItem(r) => r.name
    case OccupationItem(r) => r.name
  }

  function Code(item: Item): string
  {
    match item
    case IncomeItem(r) => r.code
    case OccupationItem(r) => r.code
  }

  function Rates(item: Item): TaxRate
  {
    match item
    case IncomeItem(r) => r.taxRate
    case OccupationItem(r) => r.taxRate
  }

  /** `description` is declared by both shapes. */
  function Description(item: Item): Option<string>
  {
    match item
    case IncomeItem(r) => r.description
    case OccupationItem(r) => r.description
  }

  function Category(item: Item): Option<string>
  {
    match item
    case IncomeItem(_) => None
    case OccupationItem(r) => r.category
  }

  function FormatCode(item: Item): Option<string>
  {
    match item
    case IncomeItem(r) => r.formatCode
    case OccupationItem(_) => None
  }

  function ExemptionLimit(item: Item): Option<string>
  {
    match item
    case IncomeItem(r) => r.exemptionLimit
    case OccupationItem(_) => None
  }

  function WithholdingThreshold(item: Item): Option<string>
  {
    match item
    case IncomeItem(r) => r.withholdingThreshold
    case OccupationItem(_) => None
  }

  function HealthInsuranceCode(item: Item): Option<string>
  {
    match item
    case IncomeItem(r) => r.healthInsuranceCode
    case OccupationItem(_) => None
  }

  function HealthInsuranceName(item: Item): Option<string>
  {
    match item
    case IncomeItem(r) => r.healthInsuranceName
    case OccupationItem(_) => None
  }

  function FeeCategory(item: Item): Option<string>
  {
    match item
    case IncomeItem(r) => r.feeCategory
    case OccupationItem(_) => None
  }

  function Examples(item: Item): Option<seq<string>>
  {
    match item
    case IncomeItem(r) => r.examples
    case OccupationItem(_) => None
  }

  function Notes(item: Item): Option<string>
  {
    match item
    case IncomeItem(r) => r.notes
    case OccupationItem(_) => None
  }

  /**
   * `isIncomeData`: the record was opened from the income tab and has a
   * `description` key, whatever its value.
   */
  predicate IsIncomeData(item: Item, t: CategoryType)
    ensures t == OccupationType ==> !IsIncomeData(item, t)
    ensures item.IncomeItem? && t == IncomeType ==> (IsIncomeData(item, t) <==> item.income.description.Some?)
    ensures item.OccupationItem? && t == IncomeType ==> (IsIncomeData(item, t) <==> item.occupation.description.Some?)
  {
    t == IncomeType && Description(item).Some?
  }

  /** One visible part of the dialog. */
  datatype Section =
    | Title(name: string)
    | CodeLine(code: string)
    | FormatCodeLine(formatCode: string)
    | CategoryLine(category: string)
    | DescriptionBlock(description: string)
    | TaxRates(resident: string, nonResident: string)
      /** The tax-information block; each inner block is present only when truthy. */
    | TaxInfo(exemptionLimit: Option<string>, withholdingThreshold: Option<string>)
      /** The name is printed as read, even when absent; the fee line only when truthy. */
    | HealthInsurance(insuranceCode: string, insuranceName: Option<string>, feeCategory: Option<string>)
    | ExampleList(examples: seq<string>)
    | NotesBlock(notes: string)

  /** The kinds of section, one per place in the dialog. */
  datatype Kind =
    | TitleKind | CodeKind | FormatCodeKind | CategoryKind | DescriptionKind
    | TaxRatesKind | TaxInfoKind | HealthInsuranceKind | ExamplesKind | NotesKind

  function KindOf(s: Section): Kind
  {
    match s
    case Title(_) => TitleKind
    case CodeLine(_) => CodeKind
    case FormatCodeLine(_) => FormatCodeKind
    case CategoryLine(_) => CategoryKind
    case DescriptionBlock(_) => DescriptionKind
    case TaxRates(_, _) => TaxRatesKind
    case TaxInfo(_, _) => TaxInfoKind
    case HealthInsurance(_, _, _) => HealthInsuranceKind
    case ExampleList(_) => ExamplesKind
    case NotesBlock(_) => NotesKind
  }

  /** The sections that only income data can show. */
  predicate IncomeOnly(s: Section)
  {
    s.FormatCodeLine? || s.TaxInfo? || s.HealthInsurance? || s.ExampleList? || s.NotesBlock?
  }

  /** The dialog's layout, top to bottom: the header, then the body. */
  const Layout: seq<Kind> := [
    TitleKind, CodeKind, FormatCodeKind, CategoryKind,
    DescriptionKind, TaxRatesKind, TaxInfoKind, HealthInsuranceKind, ExamplesKind, NotesKind]

  /**
   * What one place of the layout shows for a record: its section, or nothing when
   * the place's gate is closed. Only the description place is not behind
   * `isIncomeData`.
   */
  function Piece(k: Kind, item: Item, isIncomeData: bool): (r: seq<Section>)
    ensures |r| <= 1
    ensures forall s :: s in r ==> KindOf(s) == k
  {
    match k
    case TitleKind => [Title(Name(item))]
    case CodeKind => [CodeLine(Code(item))]
    case FormatCodeKind =>
      if isIncomeData && Truthy(FormatCode(item)) then [FormatCodeLine(FormatCode(item).value)] else []
    case CategoryKind =>
      if !isIncomeData && Truthy(Category(item)) then [CategoryLine(Category(item).value)] else []
    case DescriptionKind =>
      if Truthy(Description(item)) then [DescriptionBlock(Description(item).value)] else []
    case TaxRatesKind => [TaxRates(Rates(item).resident, Rates(item).nonResident)]
    case TaxInfoKind =>
      var exemption, threshold := ExemptionLimit(item), WithholdingThreshold(item);
      if isIncomeData && (Truthy(exemption) || Truthy(threshold))
      then [TaxInfo(IfTruthy(exemption), IfTruthy(threshold))] else []
    case HealthInsuranceKind =>
      if isIncomeData && Truthy(HealthInsuranceCode(item))
      then [HealthInsurance(HealthInsuranceCode(item).value, HealthInsuranceName(item), IfTruthy(FeeCategory(item)))]
      else []
    case ExamplesKind =>
      var examples := Examples(item);
      if isIncomeData && examples.Some? && |examples.value| > 0 then [ExampleList(examples.value)] else []
    case NotesKind =>
      if isIncomeData && Truthy(Notes(item)) then [NotesBlock(Notes(item).value)] else []
  }

  /** The pieces of the given places, in order. */
  function Pieces(ks: seq<Kind>, item: Item, isIncomeData: bool): seq<Section>
  {
    if ks == [] then [] else Piece(ks[0], item, isIncomeData) + Pieces(ks[1..], item, isIncomeData)
  }

  /** A section is shown exactly when its own place is in the layout and shows it. */
  lemma {:induction false} PiecesMember(ks: seq<Kind>, item: Item, isIncomeData: bool, s: Section)
    ensures s in Pieces(ks, item, isIncomeData) <==> KindOf(s) in ks && s in Piece(KindOf(s), item, isIncomeData)
  {
    if ks != [] {
      PiecesMember(ks[1..], item, isIncomeData, s);
      assert ks == [ks[0]] + ks[1..];
    }
  }

  /** The rendered dialog, or nothing at all. */
  datatype View = Nothing | Dialog(open: bool, icon: CategoryType, sections: seq<Section>)

  /**
   * `DetailModal`: nothing without a record, whatever `isOpen` says; otherwise a
   * dialog whose open flag is `isOpen`, whose icon follows the tab, and whose
   * sections are the layout's places filled for the record.
   */
  function Render(isOpen: bool, data: Option<Item>, t: CategoryType): (r: View)
    ensures r.Nothing? <==> data.None?
    ensures r.Dialog? ==> r.open == isOpen && r.icon == t
  {
    match data
    case None => Nothing
    case Some(item) => Dialog(isOpen, t, Pieces(Layout, item, IsIncomeData(item, t)))
  }

  /** The sections of the dialog for a record. */
  function SectionsOf(isOpen: bool, item: Item, t: CategoryType): seq<Section>
  {
    Render(isOpen, Some(item), t).sections
  }

  /** A section of the dialog is exactly a section its own place shows. */
  lemma Shown(isOpen: bool, item: Item, t: CategoryType, s: Section)
    ensures s in SectionsOf(isOpen, item, t) <==> s in Piece(KindOf(s), item, IsIncomeData(item, t))
  {
    PiecesMember(Layout, item, IsIncomeData(item, t), s);
  }

  /** Name, code and both tax rates are shown for every record. */
  lemma AlwaysShown(isOpen: bool, item: Item, t: CategoryType)
    ensures Title(Name(item)) in SectionsOf(isOpen, item, t)
    ensures CodeLine(Code(item)) in SectionsOf(isOpen, item, t)
    ensures TaxRates(Rates(item).resident, Rates(item).nonResident) in SectionsOf(isOpen, item, t)
  {
    Shown(isOpen, item, t, Title(Name(item)));
    Shown(isOpen, item, t, CodeLine(Code(item)));
    Shown(isOpen, item, t, TaxRates(Rates(item).resident, Rates(item).nonResident));
  }

  /** The income-only sections need `isIncomeData`. */
  lemma IncomeOnlyNeedsIncomeData(isOpen: bool, item: Item, t: CategoryType)
    ensures forall s :: s in SectionsOf(isOpen, item, t) && IncomeOnly(s) ==> IsIncomeData(item, t)
  {
    forall s | s in SectionsOf(isOpen, item, t) && IncomeOnly(s)
      ensures IsIncomeData(item, t)
    {
      Shown(isOpen, item, t, s);
    }
  }

  /** The category line shows exactly when the record is not income data and has a truthy category. */
  lemma CategoryLineGate(isOpen: bool, item: Item, t: CategoryType)
    ensures (exists s :: s in SectionsOf(isOpen, item, t) && s.CategoryLine?)
      <==> !IsIncomeData(item, t) && Truthy(Category(item))
    ensures forall s :: s in SectionsOf(isOpen, item, t) && s.CategoryLine? ==> s.category == Category(item).value
  {
    var p := Piece(CategoryKind, item, IsIncomeData(item, t));
    forall s | s in SectionsOf(isOpen, item, t) && s.CategoryLine?
      ensures s in p
    {
      Shown(isOpen, item, t, s);
    }
    if p != [] {
      Shown(isOpen, item, t, p[0]);
    }
  }

  /** The format code line shows exactly when the record is income data with a truthy format code. */
  lemma FormatCodeGate(isOpen: bool, item: Item, t: CategoryType)
    ensures (exists s :: s in SectionsOf(isOpen, item, t) && s.FormatCodeLine?)
      <==> IsIncomeData(item, t) && Truthy(FormatCode(item))
    ensures forall s :: s in SectionsOf(isOpen, item, t) && s.FormatCodeLine? ==> s.formatCode == FormatCode(item).value
  {
    var p := Piece(FormatCodeKind, item, IsIncomeData(item, t));
    forall s | s in SectionsOf(isOpen, item, t) && s.FormatCodeLine?
      ensures s in p
    {
      Shown(isOpen, item, t, s);
    }
    if p != [] {
      Shown(isOpen, item, t, p[0]);
    }
  }

  /** The description block shows exactly when the description is truthy, for either kind of record. */
  lemma DescriptionGate(isOpen: bool, item: Item, t: CategoryType)
    ensures (exists s :: s in SectionsOf(isOpen, item, t) && s.DescriptionBlock?) <==> Truthy(Description(item))
    ensures forall s :: s in SectionsOf(isOpen, item, t) && s.DescriptionBlock? ==> s.description == Description(item).value
  {
    var p := Piece(DescriptionKind, item, IsIncomeData(item, t));
    forall s | s in SectionsOf(isOpen, item, t) && s.DescriptionBlock?
      ensures s in p
    {
      Shown(isOpen, item, t, s);
    }
    if p != [] {
      Shown(isOpen, item, t, p[0]);
    }
  }

  /**
   * The tax-information section shows exactly when the record is income data and
   * has a truthy exemption limit or withholding threshold; inside it each of the
   * two blocks is present exactly when its own field is truthy.
   */
  lemma TaxInfoGate(isOpen: bool, item: Item, t: CategoryType)
    ensures (exists s :: s in SectionsOf(isOpen, item, t) && s.TaxInfo?)
      <==> IsIncomeData(item, t) && (Truthy(ExemptionLimit(item)) || Truthy(WithholdingThreshold(item)))
    ensures forall s :: s in SectionsOf(isOpen, item, t) && s.TaxInfo? ==>
      (s.exemptionLimit.Some? <==> Truthy(ExemptionLimit(item)))
      && (s.withholdingThreshold.Some? <==> Truthy(WithholdingThreshold(item)))
      && (s.exemptionLimit.Some? ==> s.exemptionLimit == ExemptionLimit(item))
      && (s.withholdingThreshold.Some? ==> s.withholdingThreshold == WithholdingThreshold(item))
  {
    var p := Piece(TaxInfoKind, item, IsIncomeData(item, t));
    forall s | s in SectionsOf(isOpen, item, t) && s.TaxInfo?
      ensures s in p
    {
      Shown(isOpen, item, t, s);
    }
    if p != [] {
      Shown(isOpen, item, t, p[0]);
    }
  }

  /**
   * The health-insurance section is gated on the code alone: it shows exactly when
   * the record is income data with a truthy code; inside it the name is printed as
   * read and the fee category is present exactly when truthy.
   */
  lemma HealthInsuranceGate(isOpen: bool, item: Item, t: CategoryType)
    ensures (exists s :: s in SectionsOf(isOpen, item, t) && s.HealthInsurance?)
      <==> IsIncomeData(item, t) && Truthy(HealthInsuranceCode(item))
    ensures forall s :: s in SectionsOf(isOpen, item, t) && s.HealthInsurance? ==>
      s.insuranceCode == HealthInsuranceCode(item).value && s.insuranceName == HealthInsuranceName(item)
      && (s.feeCategory.Some? <==> Truthy(FeeCategory(item)))
      && (s.feeCategory.Some? ==> s.feeCategory == FeeCategory(item))
  {
    var p := Piece(HealthInsuranceKind, item, IsIncomeData(item, t));
    forall s | s in SectionsOf(isOpen, item, t) && s.HealthInsurance?
      ensures s in p
    {
      Shown(isOpen, item, t, s);
    }
    if p != [] {
      Shown(isOpen, item, t, p[0]);
    }
  }

  /**
   * The examples section shows exactly when the record is income data with a
   * non-empty examples array, and lists the examples in the array's order.
   */
  lemma ExamplesGate(isOpen: bool, item: Item, t: CategoryType)
    ensures (exists s :: s in SectionsOf(isOpen, item, t) && s.ExampleList?)
      <==> IsIncomeData(item, t) && Examples(item).Some? && |Examples(item).value| > 0
    ensures forall s :: s in SectionsOf(isOpen, item, t) && s.ExampleList? ==> s.examples == Examples(item).value
  {
    var p := Piece(ExamplesKind, item, IsIncomeData(item, t));
    forall s | s in SectionsOf(isOpen, item, t) && s.ExampleList?
      ensures s in p
    {
      Shown(isOpen, item, t, s);
    }
    if p != [] {
      Shown(isOpen, item, t, p[0]);
    }
  }

  /** The notes block shows exactly when the record is income data with truthy notes. */
  lemma NotesGate(isOpen: bool, item: Item, t: CategoryType)
    ensures (exists s :: s in SectionsOf(isOpen, item, t) && s.NotesBlock?)
      <==> IsIncomeData(item, t) && Truthy(Notes(item))
    ensures forall s :: s in SectionsOf(isOpen, item, t) && s.NotesBlock? ==> s.notes == Notes(item).value
  {
    var p := Piece(NotesKind, item, IsIncomeData(item, t));
    forall s | s in SectionsOf(isOpen, item, t) && s.NotesBlock?
      ensures s in p
    {
      Shown(isOpen, item, t, s);
    }
    if p != [] {
      Shown(isOpen, item, t, p[0]);
    }
  }

  /**
   * An occupation record never shows an income-only section, whichever tab it is
   * opened from, and opened from the occupation tab no record does.
   */
  lemma NoIncomeSectionsForOccupation(isOpen: bool, item: Item, t: CategoryType)
    requires item.OccupationItem? || t == OccupationType
    ensures forall s :: s in SectionsOf(isOpen, item, t) ==> !IncomeOnly(s)
  {
    forall s | s in SectionsOf(isOpen, item, t)
      ensures !IncomeOnly(s)
    {
      Shown(isOpen, item, t, s);
    }
  }

  /** Every record of `incomeCategories`, opened from the income tab, is income data. */
  lemma IncomeRecordsAreIncomeData(i: int)
    requires 0 <= i < |incomeCategories|
    ensures IsIncomeData(IncomeItem(incomeCategories[i]), IncomeType)
  {
  }
}
