/**
 * The home page (app/page.tsx): its four state cells and the two handlers that
 * update them, and what the page derives from that state -- the filtered lists,
 * the count line and the empty-result message of each tab, the cards, and the
 * detail dialog.
 */
module Page {
  import opened Wrappers
  import opened Text
  import opened IncomeData
  import opened Search
  import opened DetailModal
  import ResultCard

  /** The line above a tab's grid: "found N results" or "N categories in all". */
  datatype CountLine = Found(count: nat) | Total(count: nat)

  /**
   * The income tab's count line. "Found" shows whenever the raw query is a
   * non-empty string, even one of white space only; the count never exceeds the
   * collection, and a blank query counts the whole collection.
   */
  function IncomeCountLine(searchQuery: string, items: seq<IncomeCategory>): (r: CountLine)
    ensures r.Found? <==> searchQuery != ""
    ensures r.count <= |items|
    ensures r.Total? ==> r.count == |items|
    ensures Trim(searchQuery) == [] ==> r.count == |items|
    ensures r.Found? ==> r.count == |FilterIncome(searchQuery, items)|
  {
    FilterIncomeSpec(searchQuery, items);
    SubsequenceLength(FilterIncome(searchQuery, items), items);
    if searchQuery != "" then Found(|FilterIncome(searchQuery, items)|) else Total(|items|)
  }

  /** The occupation tab's count line, by the same rule. */
  function OccupationCountLine(searchQuery: string, items: seq<OccupationCategory>): (r: CountLine)
    ensures r.Found? <==> searchQuery != ""
    ensures r.count <= |items|
    ensures r.Total? ==> r.count == |items|
    ensures Trim(searchQuery) == [] ==> r.count == |items|
    ensures r.Found? ==> r.count == |FilterOccupation(searchQuery, items)|
  {
    FilterOccupationSpec(searchQuery, items);
    SubsequenceLength(FilterOccupation(searchQuery, items), items);
    if searchQuery != "" then Found(|FilterOccupation(searchQuery, items)|) else Total(|items|)
  }

  lemma {:induction false} SubsequenceLength<T>(a: seq<T>, b: seq<T>)
    requires IsSubsequence(a, b)
    ensures |a| <= |b|
  {
    if a != [] && b != [] {
      if a[0] == b[0] && IsSubsequence(a[1..], b[1..]) {
        SubsequenceLength(a[1..], b[1..]);
      } else {
        SubsequenceLength(a, b[1..]);
      }
    }
  }

  /** The income tab's "nothing found" message: the filtered list is empty and the raw query is not. */
  predicate IncomeEmptyMessage(searchQuery: string, items: seq<IncomeCategory>)
  {
    |FilterIncome(searchQuery, items)| == 0 && searchQuery != ""
  }

  /** The occupation tab's "nothing found" message, by the same rule. */
  predicate OccupationEmptyMessage(searchQuery: string, items: seq<OccupationCategory>)
  {
    |FilterOccupation(searchQuery, items)| == 0 && searchQuery != ""
  }

  /**
   * The income message shows exactly when the query is a non-empty string and no
   * record matches it; a query of white space only keeps every record, so over a
   * non-empty collection it never shows the message. It always comes with the
   * count line "found 0".
   */
  lemma IncomeEmptyMessageIff(searchQuery: string, items: seq<IncomeCategory>)
    ensures IncomeEmptyMessage(searchQuery, items) <==>
      searchQuery != ""
      && (Trim(searchQuery) == [] ==> items == [])
      && (Trim(searchQuery) != [] ==> forall x :: x in items ==> !IncomeMatches(x, Normalize(searchQuery)))
    ensures IncomeEmptyMessage(searchQuery, items) ==> IncomeCountLine(searchQuery, items) == Found(0)
  {
    FilterIncomeSpec(searchQuery, items);
    var r := FilterIncome(searchQuery, items);
    if Trim(searchQuery) != [] && r != [] {
      assert r[0] in r;
    }
  }

  /** The occupation message, by the same rule. */
  lemma OccupationEmptyMessageIff(searchQuery: string, items: seq<OccupationCategory>)
    ensures OccupationEmptyMessage(searchQuery, items) <==>
      searchQuery != ""
      && (Trim(searchQuery) == [] ==> items == [])
      && (Trim(searchQuery) != [] ==> forall x :: x in items ==> !OccupationMatches(x, Normalize(searchQuery)))
    ensures OccupationEmptyMessage(searchQuery, items) ==> OccupationCountLine(searchQuery, items) == Found(0)
  {
    FilterOccupationSpec(searchQuery, items);
    var r := FilterOccupation(searchQuery, items);
    if Trim(searchQuery) != [] && r != [] {
      assert r[0] in r;
    }
  }

  /** The grid of a tab: one income card per record, in order. */
  function IncomeCards(kept: seq<IncomeCategory>): (cards: seq<ResultCard.Card>)
    ensures |cards| == |kept|
    ensures forall i :: 0 <= i < |cards| ==> cards[i] == ResultCard.Render(ResultCard.IncomeCardProps(kept[i]))
    ensures forall i :: 0 <= i < |cards| ==> cards[i].icon == IncomeType
  {
    seq(|kept|, i requires 0 <= i < |kept| => ResultCard.Render(ResultCard.IncomeCardProps(kept[i])))
  }

  /** The grid of the occupation tab: one occupation card per record, in order. */
  function OccupationCards(kept: seq<OccupationCategory>): (cards: seq<ResultCard.Card>)
    ensures |cards| == |kept|
    ensures forall i :: 0 <= i < |cards| ==> cards[i] == ResultCard.Render(ResultCard.OccupationCardProps(kept[i]))
    ensures forall i :: 0 <= i < |cards| ==> cards[i].icon == OccupationType
  {
    seq(|kept|, i requires 0 <= i < |kept| => ResultCard.Render(ResultCard.OccupationCardProps(kept[i])))
  }

  /**
   * A tab over a collection: its count line, one card per kept record in
   * collection order, and whether the message shows; the message comes only with
   * "found 0" and no card.
   */
  function IncomeTabOf(searchQuery: string, items: seq<IncomeCategory>): (r: (CountLine, seq<ResultCard.Card>, bool))
    ensures r.0.Found? <==> searchQuery != ""
    ensures r.0 == (if searchQuery != "" then Found(|r.1|) else Total(|items|))
    ensures r.1 == IncomeCards(FilterIncome(searchQuery, items))
    ensures |r.1| == |FilterIncome(searchQuery, items)|
    ensures forall i :: 0 <= i < |r.1| ==> r.1[i].icon == IncomeType
    ensures r.2 <==> r.1 == [] && searchQuery != ""
    ensures r.2 ==> r.0 == Found(0) && r.1 == []
  {
    IncomeEmptyMessageIff(searchQuery, items);
    (IncomeCountLine(searchQuery, items), IncomeCards(FilterIncome(searchQuery, items)), IncomeEmptyMessage(searchQuery, items))
  }

  /** The occupation tab over a collection, by the same rules. */
  function OccupationTabOf(searchQuery: string, items: seq<OccupationCategory>): (r: (CountLine, seq<ResultCard.Card>, bool))
    ensures r.0.Found? <==> searchQuery != ""
    ensures r.0 == (if searchQuery != "" then Found(|r.1|) else Total(|items|))
    ensures r.1 == OccupationCards(FilterOccupation(searchQuery, items))
    ensures |r.1| == |FilterOccupation(searchQuery, items)|
    ensures forall i :: 0 <= i < |r.1| ==> r.1[i].icon == OccupationType
    ensures r.2 <==> r.1 == [] && searchQuery != ""
    ensures r.2 ==> r.0 == Found(0) && r.1 == []
  {
    OccupationEmptyMessageIff(searchQuery, items);
    (OccupationCountLine(searchQuery, items), OccupationCards(FilterOccupation(searchQuery, items)), OccupationEmptyMessage(searchQuery, items))
  }

  /**
   * A query of white space only: both tabs say "found" with the full count of
   * their collection, and over non-empty collections neither shows the message.
   */
  lemma WhitespaceQueryCounts(searchQuery: string, incomes: seq<IncomeCategory>, occupations: seq<OccupationCategory>)
    requires searchQuery != "" && AllSpace(searchQuery)
    ensures IncomeCountLine(searchQuery, incomes) == Found(|incomes|)
    ensures OccupationCountLine(searchQuery, occupations) == Found(|occupations|)
    ensures IncomeEmptyMessage(searchQuery, incomes) <==> incomes == []
    ensures OccupationEmptyMessage(searchQuery, occupations) <==> occupations == []
  {
    TrimEmptyIffAllSpace(searchQuery);
  }

  /** On the shipped data, a query of white space only says "found 10" and "found 62". */
  lemma WhitespaceQuery(searchQuery: string)
    requires searchQuery != "" && AllSpace(searchQuery)
    ensures IncomeCountLine(searchQuery, incomeCategories) == Found(10)
    ensures OccupationCountLine(searchQuery, occupationCategories) == Found(62)
    ensures !IncomeEmptyMessage(searchQuery, incomeCategories)
    ensures !OccupationEmptyMessage(searchQuery, occupationCategories)
  {
    IncomeCodesInOrder();
    OccupationCodesDistinct();
    WhitespaceQueryCounts(searchQuery, incomeCategories, occupationCategories);
  }

  /**
   * While the dialog's open flag follows the selection, the page renders a dialog
   * exactly when it is open, and every dialog it renders is open.
   */
  lemma DialogFollowsSelection(isOpen: bool, data: Option<Item>, t: CategoryType)
    requires isOpen <==> data.Some?
    ensures DetailModal.Render(isOpen, data, t).Dialog? <==> isOpen
    ensures DetailModal.Render(isOpen, data, t).Dialog? ==> DetailModal.Render(isOpen, data, t).open
  {
  }

  /** `HomePage`: the four `useState` cells and the handlers that update them. */
  class HomePage {
    var searchQuery: string
    var selectedItem: Option<Item>
    var selectedType: CategoryType
    var isModalOpen: bool

    /** The dialog is open exactly while a record is selected. */
    predicate Valid()
      reads this
    {
      isModalOpen <==> selectedItem.Some?
    }

    /** The initial state: empty query, nothing selected, income tab type, dialog closed. */
    constructor ()
      ensures searchQuery == "" && selectedItem == None && selectedType == IncomeType && !isModalOpen
      ensures Valid()
    {
      searchQuery := "";
      selectedItem := None;
      selectedType := IncomeType;
      isModalOpen := false;
    }

    /** `onSearch`: the search bar hands the page a new query; nothing else changes. */
    method SetSearchQuery(query: string)
      modifies this
      ensures searchQuery == query
      ensures selectedItem == old(selectedItem) && selectedType == old(selectedType)
      ensures isModalOpen == old(isModalOpen)
      ensures Valid() == old(Valid())
    {
      searchQuery := query;
    }

    /**
     * `handleItemClick`: selects the record and its type and opens the dialog,
     * from any state, replacing an open selection; the dialog then shows exactly
     * that record as seen from that tab.
     */
    method HandleItemClick(item: Item, t: CategoryType)
      modifies this
      ensures selectedItem == Some(item) && selectedType == t && isModalOpen
      ensures searchQuery == old(searchQuery)
      ensures Valid()
      ensures Modal() == DetailModal.Render(true, Some(item), t)
    {
      selectedItem := Some(item);
      selectedType := t;
      isModalOpen := true;
    }

    /**
     * `handleCloseModal`: closes the dialog and clears the selection; the type of
     * the last selection stays. The page then renders no dialog.
     */
    method HandleCloseModal()
      modifies this
      ensures !isModalOpen && selectedItem == None
      ensures selectedType == old(selectedType) && searchQuery == old(searchQuery)
      ensures Valid()
      ensures Modal().Nothing?
    {
      isModalOpen := false;
      selectedItem := None;
    }

    /** The `onClick` of an income card. */
    method ClickIncomeCard(item: IncomeCategory)
      modifies this
      ensures selectedItem == Some(IncomeItem(item)) && selectedType == IncomeType && isModalOpen
      ensures searchQuery == old(searchQuery)
      ensures Valid()
    {
      HandleItemClick(IncomeItem(item), IncomeType);
    }

    /** The `onClick` of an occupation card. */
    method ClickOccupationCard(item: OccupationCategory)
      modifies this
      ensures selectedItem == Some(OccupationItem(item)) && selectedType == OccupationType && isModalOpen
      ensures searchQuery == old(searchQuery)
      ensures Valid()
    {
      HandleItemClick(OccupationItem(item), OccupationType);
    }

    /** `filteredIncomeCategories`: the income records the current query keeps, in list order. */
    function FilteredIncome(): (r: seq<IncomeCategory>)
      reads this
      ensures r == FilterIncome(searchQuery, incomeCategories)
      ensures IsSubsequence(r, incomeCategories)
      ensures Trim(searchQuery) == [] ==> r == incomeCategories
    {
      FilterIncomeIsSubsequence(searchQuery, incomeCategories);
      FilterIncome(searchQuery, incomeCategories)
    }

    /** `filteredOccupationCategories`: the occupation records the current query keeps, in list order. */
    function FilteredOccupation(): (r: seq<OccupationCategory>)
      reads this
      ensures r == FilterOccupation(searchQuery, occupationCategories)
      ensures IsSubsequence(r, occupationCategories)
      ensures Trim(searchQuery) == [] ==> r == occupationCategories
    {
      FilterOccupationIsSubsequence(searchQuery, occupationCategories);
      FilterOccupation(searchQuery, occupationCategories)
    }

    /**
     * The income tab: its count line, one income card per kept record in list
     * order, and whether the message shows; the message comes only with "found 0"
     * and no card.
     */
    function IncomeTab(): (r: (CountLine, seq<ResultCard.Card>, bool))
      reads this
      ensures r == IncomeTabOf(searchQuery, incomeCategories)
    {
      IncomeTabOf(searchQuery, incomeCategories)
    }

    /** The occupation tab, by the same rules as the income tab. */
    function OccupationTab(): (r: (CountLine, seq<ResultCard.Card>, bool))
      reads this
      ensures r == OccupationTabOf(searchQuery, occupationCategories)
    {
      OccupationTabOf(searchQuery, occupationCategories)
    }

    /**
     * The detail dialog the page renders: a dialog exactly while a record is
     * selected, and so, in a valid state, exactly while the dialog is open.
     */
    function Modal(): (r: DetailModal.View)
      reads this
      ensures r.Dialog? <==> selectedItem.Some?
      ensures Valid() ==> (r.Dialog? <==> isModalOpen)
      ensures r.Dialog? ==> r.open == isModalOpen && r.icon == selectedType
      ensures r.Dialog? ==> r.sections == SectionsOf(isModalOpen, selectedItem.value, selectedType)
    {
      DetailModal.Render(isModalOpen, selectedItem, selectedType)
    }
  }

  /** The income tab's grid shows the cards of the page's income list, in order. */
  lemma IncomeTabShowsList(page: HomePage)
    ensures page.IncomeTab().1 == IncomeCards(page.FilteredIncome())
  {
  }

  /** The income tab's message shows exactly when the page's income list is empty and the query is not. */
  lemma IncomeTabMessage(page: HomePage)
    ensures page.IncomeTab().2 <==> page.FilteredIncome() == [] && page.searchQuery != ""
  {
  }

  /** The occupation tab's grid shows the cards of the page's occupation list, in order. */
  lemma OccupationTabShowsList(page: HomePage)
    ensures page.OccupationTab().1 == OccupationCards(page.FilteredOccupation())
  {
  }

  /** The occupation tab's message shows exactly when the page's occupation list is empty and the query is not. */
  lemma OccupationTabMessage(page: HomePage)
    ensures page.OccupationTab().2 <==> page.FilteredOccupation() == [] && page.searchQuery != ""
  {
  }

  /**
   * Selecting a record and closing the dialog leaves nothing selected and the
   * dialog closed, but the type stays that of the selection: from the occupation
   * tab the page does not return to its initial type `IncomeType`.
   */
  method SelectThenClose(item: Item, t: CategoryType) returns (selected: Option<Item>, selectedType: CategoryType, isOpen: bool, view: DetailModal.View)
    ensures selected == None && !isOpen && view.Nothing?
    ensures selectedType == t
  {
    var page := new HomePage();
    page.HandleItemClick(item, t);
    page.HandleCloseModal();
    selected, selectedType, isOpen, view := page.selectedItem, page.selectedType, page.isModalOpen, page.Modal();
  }

  /**
   * Clicking the income card 50 and then, with the dialog still open, the
   * occupation card 30: the dialog shows the occupation record 30 as seen from the
   * occupation tab, with name, code and rates and no income-only section.
   */
  method SelectIncome50ThenOccupation30() returns (view: DetailModal.View)
    ensures view.Dialog? && view.open && view.icon == OccupationType
    ensures Title("內科醫師") in view.sections && CodeLine("30") in view.sections
    ensures TaxRates("10%", "20%") in view.sections
    ensures forall s :: s in view.sections ==> !IncomeOnly(s)
  {
    var page := new HomePage();
    page.ClickIncomeCard(incomeCategories[1]);
    page.ClickOccupationCard(occupationCategories[18]);
    view := page.Modal();
    var item := OccupationItem(occupationCategories[18]);
    assert occupationCategories[18] == OccupationCategory("30", "內科醫師", TaxRate("10%", "20%"), None, Some("醫療專業"));
    AlwaysShown(true, item, OccupationType);
    NoIncomeSectionsForOccupation(true, item, OccupationType);
  }
}
