/**
 * The search filters applied to the shipped dataset: concrete queries and the
 * records they keep or drop.
 */
module SearchScenarios {
  import opened Wrappers
  import opened Text
  import opened IncomeData
  import opened Search

  /** Every income record is found by searching for its own code. */
  lemma EveryIncomeFoundByCode()
    ensures forall i :: 0 <= i < |incomeCategories| ==>
      incomeCategories[i] in FilterIncome(incomeCategories[i].code, incomeCategories)
  {
    forall i | 0 <= i < |incomeCategories|
      ensures incomeCategories[i] in FilterIncome(incomeCategories[i].code, incomeCategories)
    {
      FilterIncomeFindsOwnCode(incomeCategories[i], incomeCategories);
    }
  }

  /** Every occupation record is found by searching for its own code. */
  lemma EveryOccupationFoundByCode()
    ensures forall i :: 0 <= i < |occupationCategories| ==>
      occupationCategories[i] in FilterOccupation(occupationCategories[i].code, occupationCategories)
  {
    forall i | 0 <= i < |occupationCategories|
      ensures occupationCategories[i] in FilterOccupation(occupationCategories[i].code, occupationCategories)
    {
      FilterOccupationFindsOwnCode(occupationCategories[i], occupationCategories);
    }
  }

  lemma Normalize9A()
    ensures Normalize("9A") == "9a"
  {
    assert Lower("9A") == "9a";
    TrimOfTrimmed("9a");
  }

  lemma Normalize9aPadded()
    ensures Normalize(" 9a ") == "9a"
  {
    Lower9aPadded();
    Trim9aPadded();
  }

  lemma Lower9aPadded()
    ensures Lower(" 9a ") == " 9a "
  {
    assert LowerChar('9') == '9' && LowerChar('a') == 'a';
  }

  lemma Trim9aPadded()
    ensures Trim(" 9a ") == "9a"
  {
    TrimPadded(" ", "9a", " ");
    assert " " + "9a" + " " == " 9a ";
  }

  lemma Normalize9a()
    ensures Normalize("9a") == "9a"
  {
    assert Lower("9a") == "9a";
    TrimOfTrimmed("9a");
  }

  /** A query that normalises like a record's code keeps that record. */
  lemma IncomeKeptByCodeQuery(searchQuery: string, item: IncomeCategory, items: seq<IncomeCategory>)
    requires item in items
    requires Normalize(searchQuery) == Normalize(item.code)
    ensures item in FilterIncome(searchQuery, items)
  {
    FilterIncomeFindsOwnCode(item, items);
    FilterIncomeByNormalization(searchQuery, item.code, items);
  }

  /**
   * Every query that normalises to "9a" -- among them "9a", "9A" and " 9a "
   * (Normalize9a, Normalize9A, Normalize9aPadded) -- keeps the 9A record.
   */
  lemma Query9AKeeps9A(searchQuery: string)
    requires Normalize(searchQuery) == "9a"
    ensures incomeCategories[2].code == "9A"
    ensures incomeCategories[2] in FilterIncome(searchQuery, incomeCategories)
  {
    Income9ACode();
    Normalize9A();
    KeptAt(searchQuery, incomeCategories, 2);
  }

  /** A query that normalises like the code of the record at index `i` keeps that record. */
  lemma KeptAt(searchQuery: string, items: seq<IncomeCategory>, i: int)
    requires 0 <= i < |items|
    requires Normalize(searchQuery) == Normalize(items[i].code)
    ensures items[i] in FilterIncome(searchQuery, items)
  {
    IncomeKeptByCodeQuery(searchQuery, items[i], items);
  }

  lemma Income9ACode()
    ensures incomeCategories[2].code == "9A"
  {
    IncomeCodesInOrder();
  }

  lemma Income9BCode()
    ensures incomeCategories[3].code == "9B"
  {
    IncomeCodesInOrder();
  }

  /** The notes of the 91 record mention the code 9B. */
  lemma Income91Notes()
    ensures incomeCategories[6].code == "91"
    ensures incomeCategories[6].notes == Some("版權歸公改列【" + "9B" + "】。參加活動送的小獎品是贈品不列所得(人人有獎)")
  {
    IncomeCodesInOrder();
    Notes91Split();
  }

  lemma Notes91Split()
    ensures "版權歸公改列【9B】。參加活動送的小獎品是贈品不列所得(人人有獎)"
      == "版權歸公改列【" + "9B" + "】。參加活動送的小獎品是贈品不列所得(人人有獎)"
  {
  }

  lemma Income91MatchesQuery9B()
    ensures IncomeMatches(incomeCategories[6], "9b")
  {
    Income91Notes();
    assert Lower("9B") == "9b";
    MatchesInside("版權歸公改列【", "9B", "】。參加活動送的小獎品是贈品不列所得(人人有獎)", "9b");
  }

  /**
   * Over any collection holding a 9B record at index 3 and, at index 6, a record
   * matching "9b", a query that normalises to "9b" lists the first before the second.
   */
  lemma Query9BKeepsInOrder(searchQuery: string, items: seq<IncomeCategory>)
    requires Normalize(searchQuery) == "9b"
    requires |items| > 6 && items[3].code == "9B" && IncomeMatches(items[6], "9b")
    ensures Precedes(FilterIncome(searchQuery, items), items[3], items[6])
  {
    Kept9BInPrefix(searchQuery, items);
    Kept91InSuffix(searchQuery, items);
    FilterIncomeKeepsOrderAt(searchQuery, items, 4, items[3], items[6]);
  }

  lemma Kept9BInPrefix(searchQuery: string, items: seq<IncomeCategory>)
    requires Normalize(searchQuery) == "9b"
    requires |items| > 6 && items[3].code == "9B"
    ensures items[3] in FilterIncome(searchQuery, items[..4])
  {
    var prefix := items[..4];
    assert items[3] == prefix[3];
    Normalize9B();
    IncomeKeptByCodeQuery(searchQuery, items[3], prefix);
  }

  lemma Normalize9B()
    ensures Normalize("9B") == "9b"
  {
    assert Lower("9B") == "9b";
    TrimOfTrimmed("9b");
  }

  lemma Kept91InSuffix(searchQuery: string, items: seq<IncomeCategory>)
    requires Normalize(searchQuery) == "9b"
    requires |items| > 6 && IncomeMatches(items[6], "9b")
    ensures items[6] in FilterIncome(searchQuery, items[4..])
  {
    NormalizeEmptyIffBlank(searchQuery);
    assert items[6] in items[4..];
    FilterIncomeSpec(searchQuery, items[4..]);
  }

  /**
   * Every query that normalises to "9b" keeps the 9B record, by its code, and the
   * 91 record, whose notes mention 9B, and lists 9B before 91.
   */
  lemma Query9BKeeps9BThen91(searchQuery: string)
    requires Normalize(searchQuery) == "9b"
    ensures incomeCategories[3].code == "9B" && incomeCategories[6].code == "91"
    ensures Precedes(FilterIncome(searchQuery, incomeCategories), incomeCategories[3], incomeCategories[6])
  {
    Income9BCode();
    Income91Notes();
    Income91MatchesQuery9B();
    Query9BKeepsInOrder(searchQuery, incomeCategories);
  }

  /** The two craftsman records, whose descriptions mention 投保 (insured). */
  lemma CraftsmanRows()
    ensures occupationCategories[14]
      == OccupationCategory("24", "工匠(工資收入)", TaxRate("10%", "20%"), Some("不以執行業務所得投保"), Some("技藝工作"))
    ensures occupationCategories[15]
      == OccupationCategory("25", "工匠(工料收入)", TaxRate("10%", "20%"), Some("不以執行業務所得投保"), Some("技藝工作"))
  {
  }

  lemma DescriptionMentionsInsured()
    ensures MatchesLower("不以執行業務所得投保", "投保")
  {
    assert Lower("投保") == "投保";
    assert "不以執行業務所得" + "投保" + "" == "不以執行業務所得投保";
    MatchesInside("不以執行業務所得", "投保", "", "投保");
  }

  /** Neither craftsman record matches 投保 on the fields the occupation filter reads. */
  lemma CraftsmanMissesInsured(item: OccupationCategory)
    requires item.name == "工匠(工資收入)" || item.name == "工匠(工料收入)"
    requires item.code == "24" || item.code == "25"
    requires item.category == Some("技藝工作")
    ensures !OccupationMatches(item, "投保")
  {
    NoMatchWithoutFirstChar(item.name, "投保");
    NoMatchWithoutFirstChar(item.code, "投保");
    NoMatchWithoutFirstChar(item.category.value, "投保");
  }

  /** A record that does not match the normalised, non-blank query is dropped. */
  lemma OccupationDropped(searchQuery: string, item: OccupationCategory, items: seq<OccupationCategory>)
    requires Trim(searchQuery) != [] && !OccupationMatches(item, Normalize(searchQuery))
    ensures item !in FilterOccupation(searchQuery, items)
  {
    FilterOccupationSpec(searchQuery, items);
  }

  /** A record of the collection that matches the normalised, non-blank query is kept. */
  lemma OccupationKept(searchQuery: string, item: OccupationCategory, items: seq<OccupationCategory>)
    requires item in items
    requires Trim(searchQuery) != [] && OccupationMatches(item, Normalize(searchQuery))
    ensures item in FilterOccupation(searchQuery, items)
  {
    FilterOccupationSpec(searchQuery, items);
  }

  /**
   * Every query that normalises to 投保 drops both craftsman records (codes 24 and
   * 25) although their descriptions contain it: the occupation filter never reads
   * the description.
   */
  lemma QueryInsuredDropsCraftsmen(searchQuery: string)
    requires Normalize(searchQuery) == "投保"
    ensures occupationCategories[14].code == "24" && occupationCategories[15].code == "25"
    ensures occupationCategories[14].description == Some("不以執行業務所得投保")
    ensures occupationCategories[15].description == Some("不以執行業務所得投保")
    ensures MatchesLower("不以執行業務所得投保", "投保")
    ensures occupationCategories[14] !in FilterOccupation(searchQuery, occupationCategories)
    ensures occupationCategories[15] !in FilterOccupation(searchQuery, occupationCategories)
  {
    CraftsmanRows();
    DescriptionMentionsInsured();
    NormalizeEmptyIffBlank(searchQuery);
    CraftsmanMissesInsured(occupationCategories[14]);
    CraftsmanMissesInsured(occupationCategories[15]);
    OccupationDropped(searchQuery, occupationCategories[14], occupationCategories);
    OccupationDropped(searchQuery, occupationCategories[15], occupationCategories);
  }

  lemma PhysicianAndLawyerRows()
    ensures occupationCategories[0] == OccupationCategory("10", "律師", TaxRate("10%", "20%"), None, Some("法律專業"))
    ensures occupationCategories[18] == OccupationCategory("30", "內科醫師", TaxRate("10%", "20%"), None, Some("醫療專業"))
  {
  }

  lemma PhysicianNameMatches()
    ensures MatchesLower("內科醫師", "醫師")
  {
    assert Lower("醫師") == "醫師";
    assert "內科" + "醫師" + "" == "內科醫師";
    MatchesInside("內科", "醫師", "", "醫師");
  }

  lemma LawyerMissesPhysician(item: OccupationCategory)
    requires item == OccupationCategory("10", "律師", TaxRate("10%", "20%"), None, Some("法律專業"))
    ensures !OccupationMatches(item, "醫師")
  {
    NoMatchWithoutFirstChar(item.name, "醫師");
    NoMatchWithoutFirstChar(item.code, "醫師");
    NoMatchWithoutFirstChar(item.category.value, "醫師");
  }

  /**
   * Every query that normalises to 醫師 (physician) keeps the internal-medicine
   * record 30, by its name, and drops the lawyer record 10, although both names end
   * in 師.
   */
  lemma QueryPhysicianKeepsInternist(searchQuery: string)
    requires Normalize(searchQuery) == "醫師"
    ensures occupationCategories[18].code == "30" && occupationCategories[0].code == "10"
    ensures occupationCategories[18] in FilterOccupation(searchQuery, occupationCategories)
    ensures occupationCategories[0] !in FilterOccupation(searchQuery, occupationCategories)
  {
    PhysicianAndLawyerRows();
    PhysicianNameMatches();
    NormalizeEmptyIffBlank(searchQuery);
    LawyerMissesPhysician(occupationCategories[0]);
    OccupationDropped(searchQuery, occupationCategories[0], occupationCategories);
    assert OccupationMatches(occupationCategories[18], "醫師");
    OccupationKept(searchQuery, occupationCategories[18], occupationCategories);
  }
}
